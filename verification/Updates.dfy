/** What changing an instance's variables from outside does to the work that is pending
    (engine-core/src/engine/instance_ops.rs). */
module Updates {
  import opened Values
  import opened Definition
  import opened EngineState
  import opened Executor
  import opened Operations

  function ValueOf(variables: Variables, k: string): Option<Value> {
    if k in variables then Some(variables[k]) else None
  }

  /** The value of `k` in the instance after an update. */
  function Updated(s: State, i: Uuid, update: Variables, k: string): Option<Value>
    requires i in s.instances
  {
    if k !in update then ValueOf(s.instances[i].variables, k)
    else if update[k].Null? then None else Some(update[k])
  }

  /** A task completed after an update goes on with the caller's values, then with those of the updated
      instance (a null there removes the variable), and otherwise with what its token had. */
  lemma UpdateReachesTokens(s: State, i: Uuid, update: Variables, t: Uuid, extra: Variables, k: string)
    requires i in s.instances && t in s.instances[i].tokens
    ensures var (s', r) := UpdateVariables(s, i, update);
      && r == Done && ValueOf(s'.instances[i].variables, k) == Updated(s, i, update, k)
      && ValueOf(MergedToken(s', i, t, extra).variables, k)
         == if k in extra then Some(extra[k])
            else match Updated(s, i, update, k)
              case None => ValueOf(s.instances[i].tokens[t].variables, k)
              case Some(v) => if v.Null? then None else Some(v)
  {
    var inst := s.instances[i];
    var vars := Merged(inst.variables, update);
    assert UpdateVariables(s, i, update).0.instances[i].tokens[t] == RefreshedToken(inst.tokens[t], vars);
  }

  /** No script of the batch changes whether the instance has variable `k`. */
  ghost predicate ScriptsAgree(steps: seq<Step>, k: string, has: bool) {
    forall step <- steps :: k in step.synced <==> has
  }

  /** The instance runs on the same definition and has the same business key. */
  ghost predicate SameIdentity(a: Instance, b: Instance) {
    b.definitionKey == a.definitionKey && b.businessKey == a.businessKey
  }

  /** The instance is there, with its variables and its identity. */
  ghost predicate KeepsSelf(s: State, r: State, i: Uuid)
    requires i in s.instances
  {
    && i in r.instances && r.instances[i].variables == s.instances[i].variables
    && SameIdentity(s.instances[i], r.instances[i])
  }

  lemma TaskKeepsVariables(s: State, i: Uuid, tok: Token, rest: seq<Token>, action: Action, env: Env)
    requires CanAct(s, i, tok, action)
      && (action.WaitForUser? || action.WaitForServiceTask? || action.WaitForCallActivity?)
    ensures var r := Act(s, i, tok, rest, action, env).0;
      KeepsSelf(s, r, i)
  {
    hide RegisterBoundary;
  }

  lemma EventKeepsVariables(s: State, i: Uuid, tok: Token, rest: seq<Token>, action: Action, env: Env)
    requires CanAct(s, i, tok, action) && (action.WaitForTimer? || action.WaitForMessage? || action.WaitForEventGroup?)
    ensures var r := Act(s, i, tok, rest, action, env).0;
      KeepsSelf(s, r, i)
  {
    hide RegisterEvents;
  }

  lemma JoinKeepsVariables(s: State, i: Uuid, tok: Token, targets: seq<string>, join: Option<string>, expected: nat,
      early: bool)
    requires i in s.instances
    ensures var r := Fork(s, i, tok, targets, join).0;
      KeepsSelf(s, r, i)
    ensures var r := Arrive(s, i, tok, expected, early).0;
      KeepsSelf(s, r, i)
  {
    hide MarkCompleted, MarkEach, RegisterActive, MergedVariables, Gateway.Forked;
  }

  lemma EndKeepsVariables(s: State, i: Uuid, tok: Token, end: End, main: string, spawned: seq<string>)
    requires i in s.instances
    ensures var r := CompleteToken(s, i, tok, end);
      KeepsSelf(s, r, i)
    ensures var r := TerminateInstance(s, i); KeepsSelf(s, r, i)
    ensures Spawned(s, tok, main, spawned).0.instances == s.instances
  {
    hide MarkCompleted, MarkAllCompleted, AllTokensCompleted;
  }

  lemma ActKeepsVariables(s: State, i: Uuid, tok: Token, rest: seq<Token>, action: Action, env: Env)
    requires CanAct(s, i, tok, action)
    ensures var r := Act(s, i, tok, rest, action, env).0;
      KeepsSelf(s, r, i)
  {
    if action.WaitForUser? || action.WaitForServiceTask? || action.WaitForCallActivity? {
      TaskKeepsVariables(s, i, tok, rest, action, env);
    } else if action.WaitForTimer? || action.WaitForMessage? || action.WaitForEventGroup? {
      EventKeepsVariables(s, i, tok, rest, action, env);
    } else {
      hide Fork, Arrive, CompleteToken, TerminateInstance, Spawned;
      match action {
        case ContinueMultiple(targets, join) => JoinKeepsVariables(s, i, tok, targets, join, 0, false);
        case WaitForJoin(expected, early) => JoinKeepsVariables(s, i, tok, [], None, expected, early);
        case Complete(end) => EndKeepsVariables(s, i, tok, end, "", []);
        case SpawnAndContinue(main, spawned) => EndKeepsVariables(s, i, tok, Plain, main, spawned);
        case _ => EndKeepsVariables(s, i, tok, Plain, "", []);
      }
    }
  }

  lemma StepSyncs(s: State, i: Uuid, head: Token, rest: seq<Token>, step: Step, env: Env)
    requires CanStep(s, i, head, step)
    ensures var r := ApplyStep(s, i, head, rest, step, env).0;
      i in r.instances && r.instances[i].variables == step.synced && SameIdentity(s.instances[i], r.instances[i])
  {
    var p, tok := Prelude(s, i, step), head.(variables := step.variables);
    assert CanAct(p, i, tok, step.action);
    hide Act;
    ActKeepsVariables(p, i, tok, rest, step.action, env);
  }

  /** Whatever steps a batch takes, its instance stays, on its definition and with its business key. */
  lemma {:induction false} BatchKeepsIdentity(s: State, i: Uuid, queue: seq<Token>, steps: seq<Step>, env: Env,
      count: nat)
    requires i in s.instances
    ensures var r := RunBatch(s, i, queue, steps, env, count).0;
      i in r.instances && SameIdentity(s.instances[i], r.instances[i])
    decreases |steps|
  {
    hide ApplyStep, CanStep;
    if queue != [] && count < MAX_EXECUTION_STEPS && steps != [] && CanStep(s, i, queue[0], steps[0]) {
      StepSyncs(s, i, queue[0], queue[1..], steps[0], env);
      var (s', q') := ApplyStep(s, i, queue[0], queue[1..], steps[0], env);
      BatchKeepsIdentity(s', i, q', steps[1..], env, count + 1);
    }
  }

  /** Only scripts change an instance's variables in a batch. */
  lemma {:induction false} BatchVariables(s: State, i: Uuid, queue: seq<Token>, steps: seq<Step>, env: Env, count: nat,
      k: string, has: bool)
    requires i in s.instances && (k in s.instances[i].variables <==> has) && ScriptsAgree(steps, k, has)
    ensures var r := RunBatch(s, i, queue, steps, env, count).0;
      i in r.instances && (k in r.instances[i].variables <==> has)
    decreases |steps|
  {
    hide ApplyStep, CanStep;
    if queue != [] && count < MAX_EXECUTION_STEPS && steps != [] && CanStep(s, i, queue[0], steps[0]) {
      assert steps[0] in steps && forall step <- steps[1..] :: step in steps;
      StepSyncs(s, i, queue[0], queue[1..], steps[0], env);
      var (s', q') := ApplyStep(s, i, queue[0], queue[1..], steps[0], env);
      BatchVariables(s', i, q', steps[1..], env, count + 1, k, has);
    }
  }

  lemma FinishVariables(s: State, i: Uuid, tok: Token, variables: Variables, node: string, env: Env, k: string)
    requires i in s.instances && s.instances[i].definitionKey in s.definitions
      && ScriptsAgree(env.steps, k, k in variables)
    ensures var r := Finish(s, i, tok, variables, node, env).0;
      i in r.instances && (k in r.instances[i].variables <==> k in variables)
  {
    var s1 := Synced(s, i, variables);
    var next := ResolveNext(DefOf(s, i).NextNodes(node), variables);
    hide RunBatch, ResolveNext;
    if next.Some? {
      var s2 := s1.WithInstance(i, s1.instances[i].(currentNode := next.value));
      BatchVariables(s2, i, [tok.(variables := variables, currentNode := next.value)], env.steps, env, 0, k,
        k in variables);
    }
  }

  /** A completed service task leaves `k` in the instance exactly when its end scripts left it in the
      token, whatever the batch does that runs the token on. */
  lemma CompletionSyncs(s: State, id: Uuid, worker: string, extra: Variables, variables: Variables, env: Env, k: string)
    requires HeldBy(s, id, worker) && !IsSuspended(s, s.serviceTasks[id].instanceId)
    requires HasToken(s, s.serviceTasks[id].instanceId, s.serviceTasks[id].tokenId)
    requires s.instances[s.serviceTasks[id].instanceId].definitionKey in s.definitions
    requires env.endScript(MergedToken(s, s.serviceTasks[id].instanceId, s.serviceTasks[id].tokenId, extra).variables)
      == Some(variables)
    requires ScriptsAgree(env.steps, k, k in variables)
    ensures var i := s.serviceTasks[id].instanceId; var s' := CompleteServiceTask(s, id, worker, extra, env).0;
      i in s'.instances && (k in s'.instances[i].variables <==> k in variables)
  {
    hide LeaveTask, Finish, MergedToken, ScriptsAgree;
    var task := s.serviceTasks[id];
    var i, t := task.instanceId, task.tokenId;
    var s1 := TakeServiceTask(s, id);
    MergedElsewhere(s, id, i, t, extra);
    var tok := MergedToken(s1, i, t, extra);
    var s3 := Synced(LeaveTask(s1, i, t, task.nodeId), i, tok.variables);
    FinishVariables(s3, i, tok, variables, task.nodeId, env, k);
    assert CompleteServiceTask(s, id, worker, extra, env) == Finish(s3, i, tok, variables, task.nodeId, env);
  }

  lemma MergedElsewhere(s: State, id: Uuid, i: Uuid, t: Uuid, extra: Variables)
    requires HasToken(s, i, t)
    ensures MergedToken(TakeServiceTask(s, id), i, t, extra) == MergedToken(s, i, t, extra)
  {}

  /** A variable removed from an instance is back when a service task of it completes, exactly when the
      task's token had it, unless a script takes it out or puts it in. */
  lemma RemovedVariableComesBack(s: State, i: Uuid, update: Variables, k: string, id: Uuid, worker: string,
      extra: Variables,
                                 variables: Variables, env: Env)
    requires HeldBy(s, id, worker) && s.serviceTasks[id].instanceId == i && !IsSuspended(s, i)
    requires HasToken(s, i, s.serviceTasks[id].tokenId) && s.instances[i].definitionKey in s.definitions
    requires k in update && update[k].Null? && k !in extra
    requires var completed := MergedToken(UpdateVariables(s, i, update).0, i, s.serviceTasks[id].tokenId,
      extra).variables;
      env.endScript(completed) == Some(variables)
    requires ScriptsAgree(env.steps, k, k in variables)
    ensures var s1 := UpdateVariables(s, i, update).0; var s2 := CompleteServiceTask(s1, id, worker, extra, env).0;
      var completed := MergedToken(s1, i, s.serviceTasks[id].tokenId, extra).variables;
      && k !in s1.instances[i].variables && i in s2.instances
      && (k in completed <==> k in s.instances[i].tokens[s.serviceTasks[id].tokenId].variables)
      && (k in s2.instances[i].variables <==> k in variables)
  {
    var t := s.serviceTasks[id].tokenId;
    UpdateReachesTokens(s, i, update, t, extra, k);
    CompletionSyncs(UpdateVariables(s, i, update).0, id, worker, extra, variables, env, k);
  }

  /** What token `tok` keeps of `k` when the first update set it and the second removed it. */
  ghost predicate KeepsNothing(tok: Token, vars: Variables, update: Variables) {
    forall k <- update :: update[k].Null? && k in vars ==>
      ValueOf(tok.variables, k) == if vars[k].Null? then None else Some(vars[k])
  }

  lemma MergedTwice(variables: Variables, u1: Variables, u2: Variables)
    ensures Merged(Merged(variables, u1), u2) == Merged(variables, u1 + u2)
  {}

  lemma MergedAt(variables: Variables, update: Variables, k: string)
    ensures ValueOf(Merged(variables, update), k)
         == if k !in update then ValueOf(variables, k) else if update[k].Null? then None else Some(update[k])
  {}

  lemma SameValues(a: Variables, b: Variables)
    ensures a == b <==> forall k :: ValueOf(a, k) == ValueOf(b, k)
  {
    if forall k :: ValueOf(a, k) == ValueOf(b, k) {
      forall k ensures k in a <==> k in b {
        assert ValueOf(a, k) == ValueOf(b, k);
      }
      forall k | k in a ensures a[k] == b[k] {
        assert ValueOf(a, k) == ValueOf(b, k);
      }
    }
  }

  /** The token refreshed twice and once have the same value of `k`. */
  lemma RefreshedTwiceAt(tok: Token, vars: Variables, update: Variables, k: string)
    ensures ValueOf(RefreshedToken(RefreshedToken(tok, vars), Merged(vars, update)).variables, k)
         == ValueOf(RefreshedToken(tok, Merged(vars, update)).variables, k)
       <==> (k in update && update[k].Null? && k in vars ==>
              ValueOf(tok.variables, k) == if vars[k].Null? then None else Some(vars[k]))
  {
    MergedAt(vars, update, k);
    MergedAt(tok.variables, vars, k);
    MergedAt(tok.variables, Merged(vars, update), k);
    MergedAt(RefreshedToken(tok, vars).variables, Merged(vars, update), k);
    hide Merged;
  }

  lemma RefreshedTwice(tok: Token, vars: Variables, update: Variables)
    ensures RefreshedToken(RefreshedToken(tok, vars), Merged(vars, update)) == RefreshedToken(tok, Merged(vars, update))
       <==> KeepsNothing(tok, vars, update)
  {
    var twice := RefreshedToken(RefreshedToken(tok, vars), Merged(vars, update));
    var once := RefreshedToken(tok, Merged(vars, update));
    assert twice == once.(variables := twice.variables);
    hide RefreshedToken, Merged;
    SameValues(twice.variables, once.variables);
    forall k ensures ValueOf(twice.variables, k) == ValueOf(once.variables, k)
        <==> (k in update && update[k].Null? && k in vars ==>
               ValueOf(tok.variables, k) == if vars[k].Null? then None else Some(vars[k]))
    {
      RefreshedTwiceAt(tok, vars, update, k);
    }
  }

  lemma TokensTwice(tokens: map<Uuid, Token>, vars: Variables, update: Variables)
    ensures
      (RefreshedTokens(RefreshedTokens(tokens, vars), Merged(vars, update))
        == RefreshedTokens(tokens, Merged(vars, update)))
      <==> forall t <- tokens :: KeepsNothing(tokens[t], vars, update)
  {
    var twice := RefreshedTokens(RefreshedTokens(tokens, vars), Merged(vars, update));
    var once := RefreshedTokens(tokens, Merged(vars, update));
    forall t | t in tokens ensures twice[t] == once[t] <==> KeepsNothing(tokens[t], vars, update) {
      RefreshedTwice(tokens[t], vars, update);
    }
    hide RefreshedToken, KeepsNothing, Merged;
    if twice == once {
      forall t | t in tokens ensures KeepsNothing(tokens[t], vars, update) {
        assert twice[t] == once[t];
      }
    } else {
      assert exists t <- tokens :: twice[t] != once[t];
    }
  }

  lemma InstancesCompose(inst: Instance, u1: Variables, u2: Variables)
    ensures var twice, once := UpdatedInstance(UpdatedInstance(inst, u1), u2), UpdatedInstance(inst, u1 + u2);
      && twice.variables == once.variables
      && (twice == once <==> forall t <- inst.tokens :: KeepsNothing(inst.tokens[t], Merged(inst.variables, u1), u2))
  {
    MergedTwice(inst.variables, u1, u2);
    TokensTwice(inst.tokens, Merged(inst.variables, u1), u2);
    hide Merged, RefreshedTokens, KeepsNothing;
  }

  lemma WithInstanceTwice(s: State, i: Uuid, a: Instance, b: Instance, c: Instance)
    ensures s.WithInstance(i, a).WithInstance(i, b) == s.WithInstance(i, c) <==> b == c
  {
    assert s.WithInstance(i, a).WithInstance(i, b) == s.WithInstance(i, b);
    if s.WithInstance(i, b) == s.WithInstance(i, c) {
      assert s.WithInstance(i, b).instances[i] == s.WithInstance(i, c).instances[i];
    }
  }

  /** Two updates leave the instance's variables as one update with the later values over the earlier
      does; the tokens agree too exactly when none kept a variable the second update removed. */
  lemma UpdatesCompose(s: State, i: Uuid, u1: Variables, u2: Variables)
    requires i in s.instances
    ensures var twice, once := UpdateVariables(UpdateVariables(s, i, u1).0, i, u2).0, UpdateVariables(s, i, u1 + u2).0;
      && twice.instances[i].variables == once.instances[i].variables
      && (twice == once <==>
            forall t <- s.instances[i].tokens ::
              KeepsNothing(s.instances[i].tokens[t], Merged(s.instances[i].variables, u1), u2))
  {
    hide Merged, RefreshedTokens, KeepsNothing;
    var inst := s.instances[i];
    var a, b, c := UpdatedInstance(inst, u1), UpdatedInstance(UpdatedInstance(inst, u1), u2),
      UpdatedInstance(inst, u1 + u2);
    assert UpdateVariables(s, i, u1).0 == s.WithInstance(i, a);
    assert UpdateVariables(s.WithInstance(i, a), i, u2).0 == s.WithInstance(i, a).WithInstance(i, b);
    InstancesCompose(inst, u1, u2);
    WithInstanceTwice(s, i, a, b, c);
  }
}
