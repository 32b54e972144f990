/** Where referential integrity ends: for the calls and definitions it is not promised for, exactly when
    it fails. */
module IntegrityLimits {
  import opened Values
  import opened Definition
  import opened EngineState
  import opened Executor
  import opened ExecutorFrame
  import opened ExecutorProofs
  import opened Operations
  import opened CallFrames
  import Parking
  import opened Arrivals
  import opened IntegrityProofs

  // ---- Deletions the store refuses ----

  /** When the store refuses to delete an instance, integrity survives exactly when the instance had no
      pending entries: the call stops after the instance is gone and before they are. */
  lemma RefusedDeletion(s: State, i: Uuid)
    requires Integrity(s) && i in s.instances
    ensures var (s', r) := DeleteInstance(s, i, false);
      r == Failed(PersistenceError) && (Integrity(s') <==> NoEntries(s, i))
        && (NoDanglingEntries(s') <==> NoEntries(s, i))
  {
    var s' := DeleteInstance(s, i, false).0;
    if NoEntries(s, i) {
      assert s.instances - {i} == (s.instances - {i}) - {i};
      UnboundKeepsIntegrity(s, i, s.instances - {i}, s.nextId);
      assert s' == s.(instances := s.instances - {i}, nextId := s.nextId);
      IntegrityMeansNoDangling(s');
    } else {
      assert !NoDanglingEntries(s');
      if Integrity(s') { IntegrityMeansNoDangling(s'); }
    }
  }

  // ---- Moves that keep the old work ----

  /** Every entry of `m` is still in `m'`. */
  ghost predicate AllKept<K>(m: map<Uuid, Entry<K>>, m': map<Uuid, Entry<K>>) {
    forall id <- m :: id in m' && m'[id] == m[id]
  }

  ghost predicate EntriesKept(s: State, s': State) {
    && AllKept(s.userTasks, s'.userTasks) && AllKept(s.serviceTasks, s'.serviceTasks)
    && AllKept(s.timers, s'.timers) && AllKept(s.catches, s'.catches)
  }

  /** Tokens of `i` after a step were there before, or come from the queue; queued ones too, or are new. */
  ghost predicate TokensFromQueue(s: State, q: seq<Token>, s': State, q': seq<Token>, i: Uuid) {
    && i in s.instances && i in s'.instances && s.nextId <= s'.nextId
    && (forall t <- s'.instances[i].tokens :: t in s.instances[i].tokens || InQueue(q, t))
    && (forall k :: 0 <= k < |q'| ==> q'[k].id >= s.nextId || InQueue(q, q'[k].id))
  }

  ghost predicate Grown(s: State, q: seq<Token>, s': State, q': seq<Token>, i: Uuid) {
    EntriesKept(s, s') && TokensFromQueue(s, q, s', q', i)
  }

  lemma InHeadOrRest(tok: Token, rest: seq<Token>)
    ensures InQueue([tok] + rest, tok.id) && forall k :: 0 <= k < |rest| ==> InQueue([tok] + rest, rest[k].id)
  {
    assert ([tok] + rest)[0] == tok;
    assert forall k :: 0 <= k < |rest| ==> ([tok] + rest)[k + 1] == rest[k];
  }

  lemma WaitGrown(s: State, w: State, i: Uuid, tok: Token, rest: seq<Token>, waiting: InstanceState)
    requires i in s.instances && w.instances == StoreToken(s, i, tok).instances && s.nextId <= w.nextId
      && EntriesKept(s, w)
    ensures Grown(s, [tok] + rest, Await(w, i, waiting), rest, i)
  {
    InHeadOrRest(tok, rest);
    hide AllKept;
  }

  lemma StoredAndRegistered(s: State, d: ProcessDefinition, i: Uuid, tok: Token, env: Env)
    requires Sane(s) && i in s.instances
    ensures var s1 := StoreToken(s, i, tok);
      Sane(s1) && s1 == s.(instances := s1.instances)
    ensures var s1 := StoreToken(s, i, tok);
      var b := RegisterBoundary(s1, d, d.order, tok.currentNode, i, tok.id, env);
      Sane(b) && b.instances == s1.instances && EntriesKept(s, b) && s.nextId <= b.nextId
    ensures var s1 := StoreToken(s, i, tok);
      var w := RegisterEvents(s1, d, d.NextNodes(tok.currentNode), i, tok.id, env);
      w.instances == s1.instances && EntriesKept(s, w) && s.nextId <= w.nextId
  {
    var s1 := StoreToken(s, i, tok);
    StoreTokenWithin(s, i, tok);
    WithinSane(s, s1, i);
    RegisterBoundaryAdds(s1, d, d.order, tok.currentNode, i, tok.id, env);
    RegisterEventsAdds(s1, d, d.NextNodes(tok.currentNode), i, tok.id, env);
    hide RegisterBoundary, RegisterEvents, Sane, Within;
  }

  lemma UserTaskKept(b: State, i: Uuid, tok: Token, assignee: string, d: ProcessDefinition, topic: string)
    requires Sane(b)
    ensures EntriesKept(b, AddUserTask(b, i, tok, assignee)) && EntriesKept(b, AddServiceTask(b, i, tok, d, topic))
  {}

  lemma WaitKept(b: State, i: Uuid, t: Uuid, node: string, timer: TimerDefinition, name: string, env: Env)
    requires Sane(b)
    ensures EntriesKept(b, AddTimer(b, i, t, node, timer, env)) && EntriesKept(b, AddCatch(b, i, t, node, name))
  {}

  lemma KeptThen(a: State, b: State, c: State)
    requires EntriesKept(a, b) && EntriesKept(b, c)
    ensures EntriesKept(a, c)
  {}

  lemma WaitTaskGrown(s: State, i: Uuid, tok: Token, rest: seq<Token>, env: Env, action: Action)
    requires Sane(s) && CanAct(s, i, tok, action) && (action.WaitForUser? || action.WaitForServiceTask?)
    ensures Grown(s, [tok] + rest, Act(s, i, tok, rest, action, env).0, rest, i)
  {
    var d, el := s.definitions[s.instances[i].definitionKey],
      s.definitions[s.instances[i].definitionKey].nodes[tok.currentNode];
    hide RegisterBoundary, EntriesKept, Sane, Grown;
    StoredAndRegistered(s, d, i, tok, env);
    var b := RegisterBoundary(StoreToken(s, i, tok), d, d.order, tok.currentNode, i, tok.id, env);
    if action.WaitForUser? {
      UserTaskKept(b, i, tok, el.assignee, d, "");
      KeptThen(s, b, AddUserTask(b, i, tok, el.assignee));
      WaitGrown(s, AddUserTask(b, i, tok, el.assignee), i, tok, rest, WaitingOnUserTask(b.nextId));
    } else {
      UserTaskKept(b, i, tok, "", d, el.topic);
      KeptThen(s, b, AddServiceTask(b, i, tok, d, el.topic));
      WaitGrown(s, AddServiceTask(b, i, tok, d, el.topic), i, tok, rest, WaitingOnServiceTask(b.nextId));
    }
  }

  lemma StoreKept(s: State, i: Uuid, tok: Token)
    requires i in s.instances
    ensures EntriesKept(s, StoreToken(s, i, tok))
  {}

  lemma WaitEventGrown(s: State, i: Uuid, tok: Token, rest: seq<Token>, env: Env, action: Action)
    requires Sane(s) && CanAct(s, i, tok, action)
      && (action.WaitForTimer? || action.WaitForMessage? || action.WaitForEventGroup?)
    ensures Grown(s, [tok] + rest, Act(s, i, tok, rest, action, env).0, rest, i)
  {
    var d, el := s.definitions[s.instances[i].definitionKey],
      s.definitions[s.instances[i].definitionKey].nodes[tok.currentNode];
    var s1 := StoreToken(s, i, tok);
    hide RegisterEvents, EntriesKept, Sane, Grown;
    StoredAndRegistered(s, d, i, tok, env);
    StoreKept(s, i, tok);
    if action.WaitForTimer? {
      WaitKept(s1, i, tok.id, tok.currentNode, el.timer, "", env);
      KeptThen(s, s1, AddTimer(s1, i, tok.id, tok.currentNode, el.timer, env));
      WaitGrown(s, AddTimer(s1, i, tok.id, tok.currentNode, el.timer, env), i, tok, rest, WaitingOnTimer(s.nextId));
    } else if action.WaitForMessage? {
      WaitKept(s1, i, tok.id, tok.currentNode, Duration(0), el.messageName, env);
      KeptThen(s, s1, AddCatch(s1, i, tok.id, tok.currentNode, el.messageName));
      WaitGrown(s, AddCatch(s1, i, tok.id, tok.currentNode, el.messageName), i, tok, rest, WaitingOnMessage(s.nextId));
    } else {
      WaitGrown(s, RegisterEvents(s1, d, d.NextNodes(tok.currentNode), i, tok.id, env), i, tok, rest,
        WaitingOnEventBasedGateway);
    }
  }

  lemma WaitCallGrown(s: State, i: Uuid, tok: Token, rest: seq<Token>, env: Env)
    requires Sane(s) && i in s.instances && s.instances[i].definitionKey in s.definitions
    ensures Grown(s, [tok] + rest, WaitCall(s, s.definitions[s.instances[i].definitionKey], i, tok, env), rest, i)
  {
    var d := s.definitions[s.instances[i].definitionKey];
    InHeadOrRest(tok, rest);
    RegisterBoundaryAdds(s, d, d.order, tok.currentNode, i, tok.id, env);
    hide RegisterBoundary;
  }

  /** Only the instance changes: nothing is added to its tokens, and the queue gets tokens of its own. */
  lemma InstanceGrown(s: State, i: Uuid, tok: Token, rest: seq<Token>, inst: Instance, next: Uuid, more: seq<Token>)
    requires i in s.instances && next >= s.nextId && inst.tokens.Keys <= s.instances[i].tokens.Keys
    requires forall k :: 0 <= k < |more| ==> more[k].id >= s.nextId || more[k].id == tok.id
    ensures Grown(s, [tok] + rest, s.WithInstance(i, inst).(nextId := next), rest + more, i)
  {
    InHeadOrRest(tok, rest);
  }

  lemma ForkGrown(s: State, i: Uuid, tok: Token, rest: seq<Token>, targets: seq<string>, join: Option<string>)
    requires i in s.instances
    ensures var (s', q) := Fork(s, i, tok, targets, join); Grown(s, [tok] + rest, s', rest + q, i)
  {
    var (s', q) := Fork(s, i, tok, targets, join);
    hide Grown;
    InstanceGrown(s, i, tok, rest, s'.instances[i], s'.nextId, q);
    assert s' == s.WithInstance(i, s'.instances[i]).(nextId := s'.nextId);
  }

  lemma ArriveGrown(s: State, i: Uuid, tok: Token, rest: seq<Token>, expected: nat, early: bool)
    requires i in s.instances
    ensures var (s', q) := Arrive(s, i, tok, expected, early); Grown(s, [tok] + rest, s', rest + q, i)
  {
    var (s', q) := Arrive(s, i, tok, expected, early);
    ArriveShape(s, i, tok, expected, early);
    hide Grown, Arrive;
    InstanceGrown(s, i, tok, rest, s'.instances[i], s'.nextId, q);
  }

  lemma PlainGrown(s: State, i: Uuid, tok: Token, rest: seq<Token>, next: Token, end: End, main: string,
      spawned: seq<string>)
    requires i in s.instances && next.id == tok.id
    ensures Grown(s, [tok] + rest, s, rest + [next], i)
    ensures Grown(s, [tok] + rest, CompleteToken(s, i, tok, end), rest, i)
    ensures var (s', q) := Spawned(s, tok, main, spawned); Grown(s, [tok] + rest, s', rest + q, i)
  {
    var done := CompleteToken(s, i, tok, end);
    var (s', q) := Spawned(s, tok, main, spawned);
    hide Grown;
    InstanceGrown(s, i, tok, rest, s.instances[i], s.nextId, [next]);
    InstanceGrown(s, i, tok, rest, done.instances[i], s.nextId, []);
    InstanceGrown(s, i, tok, rest, s.instances[i], s'.nextId, q);
    assert s.WithInstance(i, s.instances[i]) == s && rest + [] == rest;
    assert s.WithInstance(i, s.instances[i]).(nextId := s'.nextId) == s';
    assert s.WithInstance(i, done.instances[i]).(nextId := s.nextId) == done;
  }

  lemma ActGrown(s: State, i: Uuid, tok: Token, rest: seq<Token>, action: Action, env: Env)
    requires Sane(s) && CanAct(s, i, tok, action) && !action.Terminate?
    ensures var (s', q') := Act(s, i, tok, rest, action, env); Grown(s, [tok] + rest, s', q', i)
  {
    hide Grown, Sane, WaitUser, WaitService, WaitTimer, WaitMessage, WaitEvents, WaitCall, Fork, Arrive;
    hide CompleteToken, Spawned;
    match action
    case WaitForUser => WaitTaskGrown(s, i, tok, rest, env, action);
    case WaitForServiceTask => WaitTaskGrown(s, i, tok, rest, env, action);
    case WaitForTimer => WaitEventGrown(s, i, tok, rest, env, action);
    case WaitForMessage => WaitEventGrown(s, i, tok, rest, env, action);
    case WaitForEventGroup => WaitEventGrown(s, i, tok, rest, env, action);
    case WaitForCallActivity => WaitCallGrown(s, i, tok, rest, env);
    case Continue(node) =>
      PlainGrown(s, i, tok, rest, Onward(DefOf(s, i).nodes[tok.currentNode], tok, node), Plain, "", []);
    case ContinueMultiple(targets, join) => ForkGrown(s, i, tok, rest, targets, join);
    case WaitForJoin(expected, early) => ArriveGrown(s, i, tok, rest, expected, early);
    case Complete(end) => PlainGrown(s, i, tok, rest, tok, end, "", []);
    case SpawnAndContinue(main, spawned) => PlainGrown(s, i, tok, rest, tok, Plain, main, spawned);
  }

  /** What a batch that does not terminate its instance leads to: all pending entries are still there,
      and old tokens it did not have in its queue have not come back. */
  ghost predicate BatchGrownTo(s: State, i: Uuid, queue: seq<Token>, s': State) {
    && EntriesKept(s, s') && i in s.instances && i in s'.instances && s.nextId <= s'.nextId
    && forall t <- s'.instances[i].tokens :: t < s.nextId ==> t in s.instances[i].tokens || InQueue(queue, t)
  }

  lemma GrownThen(s: State, q: seq<Token>, s1: State, q1: seq<Token>, s2: State, i: Uuid)
    requires Grown(s, q, s1, q1, i) && BatchGrownTo(s1, i, q1, s2)
    ensures BatchGrownTo(s, i, q, s2)
  {
    assert EntriesKept(s, s2);
    hide EntriesKept;
    assert forall t: Uuid :: InQueue(q1, t) && t < s.nextId ==> InQueue(q, t);
  }

  lemma ApplyStepGrown(s: State, i: Uuid, head: Token, rest: seq<Token>, step: Step, env: Env)
    requires Sane(s) && CanStep(s, i, head, step) && !step.action.Terminate?
    ensures var (s', q') := ApplyStep(s, i, head, rest, step, env); Grown(s, [head] + rest, s', q', i)
  {
    var p, tok := Prelude(s, i, step), head.(variables := step.variables);
    InstanceWithin(s, i, p.instances[i], s.nextId);
    assert p.(nextId := s.nextId) == p;
    WithinSane(s, p, i);
    ActGrown(p, i, tok, rest, step.action, env);
    SameIds(tok, head, rest);
    hide Act, Sane;
  }

  lemma SameIds(a: Token, b: Token, rest: seq<Token>)
    requires a.id == b.id
    ensures forall t :: InQueue([a] + rest, t) <==> InQueue([b] + rest, t)
  {
    forall t ensures InQueue([a] + rest, t) <==> InQueue([b] + rest, t) {
      var p, q := [a] + rest, [b] + rest;
      assert forall k :: 0 <= k < |p| ==> p[k].id == q[k].id;
    }
  }

  lemma StopGrown(s: State, i: Uuid, queue: seq<Token>, inst: Instance)
    requires i in s.instances && inst.tokens == s.instances[i].tokens
    ensures BatchGrownTo(s, i, queue, s) && BatchGrownTo(s, i, queue, s.WithInstance(i, inst))
  {}

  lemma {:induction false} BatchGrown(s: State, i: Uuid, queue: seq<Token>, steps: seq<Step>, env: Env, count: nat)
    requires Sane(s) && i in s.instances && forall step <- steps :: !step.action.Terminate?
    ensures BatchGrownTo(s, i, queue, RunBatch(s, i, queue, steps, env, count).0)
    decreases |steps|
  {
    hide ApplyStep, Sane, Within, BatchGrownTo, Grown;
    if queue == [] || count >= MAX_EXECUTION_STEPS || steps == [] || !CanStep(s, i, queue[0], steps[0]) {
      StopGrown(s, i, queue, s.instances[i].(state := CompletedWithError("EXECUTION_LIMIT_EXCEEDED")));
    } else {
      var (s1, q1) := ApplyStep(s, i, queue[0], queue[1..], steps[0], env);
      assert steps[0] in steps && forall x <- steps[1..] :: x in steps;
      StepWithin(s, i, queue[0], queue[1..], steps[0], env);
      WithinSane(s, s1, i);
      ApplyStepGrown(s, i, queue[0], queue[1..], steps[0], env);
      assert [queue[0]] + queue[1..] == queue;
      GrownHas(s, queue, s1, q1, i);
      BatchGrown(s1, i, q1, steps[1..], env, count + 1);
      GrownThen(s, queue, s1, q1, RunBatch(s1, i, q1, steps[1..], env, count + 1).0, i);
    }
  }

  lemma GrownHas(s: State, q: seq<Token>, s': State, q': seq<Token>, i: Uuid)
    requires Grown(s, q, s', q', i)
    ensures i in s'.instances
  {}

  /** No pending entry of instance `i` belongs to one of its tokens. */
  ghost predicate NothingBound(s: State, i: Uuid) {
    && (forall id <- s.userTasks :: s.userTasks[id].instanceId != i)
    && (forall id <- s.serviceTasks :: s.serviceTasks[id].instanceId != i)
    && (forall id <- s.timers :: s.timers[id].instanceId == i ==> s.timers[id].tokenId == NIL)
    && (forall id <- s.catches :: s.catches[id].instanceId == i ==> s.catches[id].tokenId == NIL)
  }

  /** Entries of a whole instance lead to the same place before and after its tokens were replaced. */
  lemma RelocatedPlaces<K>(defs: Definitions, insts: Instances, i: Uuid, inst: Instance, m: map<Uuid, Entry<K>>)
    requires i in insts && inst.definitionKey == insts[i].definitionKey && NIL !in inst.tokens
      && NIL !in insts[i].tokens
    requires forall id <- m :: m[id].instanceId == i ==> m[id].tokenId == NIL
    ensures SamePlaces(defs, insts, insts[i := inst], m)
  {}

  lemma RelocatedOk(s: State, i: Uuid, tok: Token)
    requires Integrity(s) && i in s.instances && tok.id == s.nextId
    ensures var insts := s.instances[i := Relocated(s, i, tok).instances[i]];
      InstancesOk(s.definitions, insts, s.nextId + 1) && NIL !in insts[i].tokens && NIL !in s.instances[i].tokens
  {
    assert TokensOk(s.instances[i].tokens, s.nextId);
    assert forall j <- s.instances :: TokensOk(s.instances[j].tokens, s.nextId);
  }

  lemma NothingBoundParts(s: State, i: Uuid)
    requires NothingBound(s, i)
    ensures forall id <- s.userTasks :: s.userTasks[id].instanceId == i ==> s.userTasks[id].tokenId == NIL
    ensures forall id <- s.serviceTasks :: s.serviceTasks[id].instanceId == i ==> s.serviceTasks[id].tokenId == NIL
    ensures forall id <- s.timers :: s.timers[id].instanceId == i ==> s.timers[id].tokenId == NIL
    ensures forall id <- s.catches :: s.catches[id].instanceId == i ==> s.catches[id].tokenId == NIL
  {}

  lemma RelocatedUndisturbed(s: State, i: Uuid, tok: Token)
    requires Integrity(s) && i in s.instances && NothingBound(s, i) && tok.id == s.nextId
    ensures Undisturbed(s, s.instances[i := Relocated(s, i, tok).instances[i]])
  {
    RelocatedOk(s, i, tok);
    NothingBoundParts(s, i);
    hide Integrity, InstancesOk, SamePlaces, NothingBound;
    var inst := Relocated(s, i, tok).instances[i];
    RelocatedPlaces(s.definitions, s.instances, i, inst, s.userTasks);
    RelocatedPlaces(s.definitions, s.instances, i, inst, s.serviceTasks);
    RelocatedPlaces(s.definitions, s.instances, i, inst, s.timers);
    RelocatedPlaces(s.definitions, s.instances, i, inst, s.catches);
  }

  lemma RelocatedIs(s: State, i: Uuid, tok: Token)
    requires i in s.instances
    ensures Relocated(s, i, tok)
      == s.(instances := s.instances[i := Relocated(s, i, tok).instances[i]], nextId := s.nextId + 1)
  {}

  lemma RelocatedUnbound(s: State, i: Uuid, tok: Token)
    requires Integrity(s) && i in s.instances && NothingBound(s, i) && tok.id == s.nextId
    ensures Free(Relocated(s, i, tok), i, tok.id)
  {
    IntegritySane(s);
    hide Integrity, InstancesOk, Undisturbed, Unreferenced, NothingBound, Relocated, Keyed;
    UndrawnDetached(s, i, tok.id);
    RelocatedIs(s, i, tok);
    RelocatedOk(s, i, tok);
    RelocatedUndisturbed(s, i, tok);
    var insts := s.instances[i := Relocated(s, i, tok).instances[i]];
    UndisturbedKeepsIntegrity(s, insts, s.nextId + 1);
  }

  /** Entries bound to a token dangle once the token is gone. */
  lemma BoundEntriesDangle(s: State, s': State, i: Uuid)
    requires Integrity(s) && !NothingBound(s, i) && EntriesKept(s, s') && i in s'.instances
    requires forall t <- s'.instances[i].tokens :: t >= s.nextId
    ensures !NoDanglingEntries(s')
  {
    forall t | t in s'.instances[i].tokens ensures Detached(s, i, t) {
      UndrawnDetached(s, i, t);
    }
    hide Integrity;
  }

  /** A move that leaves the old work in place keeps integrity exactly when there was none bound to a
      token; only a batch that runs into a terminate end event clears it up. */
  lemma MoveWithoutCancelling(s: State, i: Uuid, target: string, update: Variables, env: Env)
    requires Integrity(s) && MoveError(s, i, target).None? && forall step <- env.steps :: !step.action.Terminate?
    ensures var s' := MoveToken(s, i, target, update, false, env).0;
      (Integrity(s') <==> NothingBound(s, i)) && (NoDanglingEntries(s') <==> NothingBound(s, i))
  {
    var tok := MovedToken(s, i, target, update);
    var s' := MoveToken(s, i, target, update, false, env).0;
    hide Integrity, Detached, NoDanglingEntries, Run, Relocated, NothingBound;
    if NothingBound(s, i) {
      RelocatedUnbound(s, i, tok);
      RunKeeps(Relocated(s, i, tok), i, tok, env);
      IntegrityMeansNoDangling(s');
    } else {
      MoveDangles(s, i, tok, env);
      if Integrity(s') { IntegrityMeansNoDangling(s'); }
    }
  }

  lemma OldTokensGone(s1: State, i: Uuid, tok: Token, s': State, next: Uuid)
    requires i in s1.instances && s1.instances[i].tokens.Keys == {tok.id} && BatchGrownTo(s1, i, [tok], s')
    requires next <= tok.id && next <= s1.nextId
    ensures i in s'.instances && EntriesKept(s1, s') && forall t <- s'.instances[i].tokens :: t >= next
  {
    assert forall t: Uuid :: InQueue([tok], t) ==> t == tok.id;
    hide EntriesKept;
  }

  lemma MoveDangles(s: State, i: Uuid, tok: Token, env: Env)
    requires Integrity(s) && i in s.instances && tok.id == s.nextId && !NothingBound(s, i)
    requires forall step <- env.steps :: !step.action.Terminate?
    ensures !NoDanglingEntries(Run(Relocated(s, i, tok), i, tok, env).0)
  {
    var s1 := Relocated(s, i, tok);
    var s' := Run(s1, i, tok, env).0;
    hide *;
    RelocatedFrame(s, i, tok);
    RunGrown(s1, i, tok, env);
    OldTokensGone(s1, i, tok, s', s.nextId);
    KeptThen(s, s1, s');
    BoundEntriesDangle(s, s', i);
  }

  lemma RunGrown(s: State, i: Uuid, tok: Token, env: Env)
    requires Sane(s) && i in s.instances && forall step <- env.steps :: !step.action.Terminate?
    ensures BatchGrownTo(s, i, [tok], Run(s, i, tok, env).0)
  {
    hide Sane, BatchGrownTo, RunBatch;
    BatchGrown(s, i, [tok], env.steps, env, 0);
  }

  lemma RelocatedFrame(s: State, i: Uuid, tok: Token)
    requires Integrity(s) && i in s.instances && tok.id == s.nextId
    ensures var s1 := Relocated(s, i, tok);
      Sane(s1) && EntriesKept(s, s1) && i in s1.instances && s1.instances[i].tokens.Keys == {tok.id}
        && s.nextId <= s1.nextId
  {
    RelocatedKeys(s, i, tok);
    IntegritySane(s);
    RelocatedWithin(s, i, tok);
    hide Integrity, Within;
    WithinSane(s, Relocated(s, i, tok), i);
  }

  lemma IntegritySane(s: State)
    requires Integrity(s)
    ensures Sane(s)
  {}

  lemma RelocatedKeys(s: State, i: Uuid, tok: Token)
    requires i in s.instances
    ensures Relocated(s, i, tok).instances[i].tokens.Keys == {tok.id}
  {}

  // ---- Boundary events of call activities ----

  ghost predicate WaitsFor(s: State, i: Uuid, t: Uuid) {
    !Unreferenced(s.timers, i, t) || !Unreferenced(s.catches, i, t)
  }

  lemma {:induction false} RegisteringAddsWaits(s: State, d: ProcessDefinition, order: seq<string>, at: string, i: Uuid,
      t: Uuid, env: Env, n: string)
    requires Sane(s) && n in order && (n in BoundaryTimersOf(d, at) || n in BoundaryMessagesOf(d, at))
    ensures WaitsFor(RegisterBoundary(s, d, order, at, i, t, env), i, t)
    decreases |order|
  {
    var s1 := AddBoundary(s, d, order[0], at, i, t, env);
    BoundaryAdds(s, d, order[0], at, i, t, env);
    if n == order[0] {
      assert WaitsFor(s1, i, t);
      RegisterBoundaryAdds(s1, d, order[1..], at, i, t, env);
    } else {
      hide AddBoundary, Sane;
      RegisteringAddsWaits(s1, d, order[1..], at, i, t, env, n);
    }
  }

  lemma BoundaryAdds(s: State, d: ProcessDefinition, n: string, at: string, i: Uuid, t: Uuid, env: Env)
    requires Sane(s)
    ensures var s1 := AddBoundary(s, d, n, at, i, t, env);
      Sane(s1) && (n in BoundaryTimersOf(d, at) || n in BoundaryMessagesOf(d, at) ==> WaitsFor(s1, i, t))
  {
    if n in BoundaryTimersOf(d, at) {
      AddTimerAdds(s, i, t, n, d.nodes[n].timer, env);
      assert AddTimer(s, i, t, n, d.nodes[n].timer, env).timers[s.nextId].tokenId == t;
    } else if n in BoundaryMessagesOf(d, at) {
      AddCatchAdds(s, i, t, n, d.nodes[n].messageName);
      assert AddCatch(s, i, t, n, d.nodes[n].messageName).catches[s.nextId].tokenId == t;
    }
  }

  lemma WaitsForMissingTokenDangle(s: State, i: Uuid, t: Uuid)
    requires WaitsFor(s, i, t) && t != NIL && !HasToken(s, i, t)
    ensures !NoDanglingEntries(s)
  {}

  lemma SameTokensNoDangling(s: State, i: Uuid, inst: Instance, next: Uuid)
    requires NoDanglingEntries(s) && i in s.instances && inst.tokens == s.instances[i].tokens
    ensures NoDanglingEntries(s.WithInstance(i, inst).(nextId := next))
  {
    var s' := s.WithInstance(i, inst).(nextId := next);
    assert forall j, t :: HasToken(s, j, t) ==> HasToken(s', j, t);
  }

  lemma BoundaryIsNode(d: ProcessDefinition, at: string, n: string)
    requires Enumerates(d.order, d.nodes.Keys) && (n in BoundaryTimersOf(d, at) || n in BoundaryMessagesOf(d, at))
    ensures n in d.order
  {
    assert n in d.nodes.Keys;
  }

  lemma CallWaits(s: State, d: ProcessDefinition, i: Uuid, tok: Token, env: Env)
    requires Sane(s) && i in s.instances && tok.id !in s.instances[i].tokens
    requires WaitsFor(RegisterBoundary(s, d, d.order, tok.currentNode, i, tok.id, env), i, tok.id)
    ensures var s' := WaitCall(s, d, i, tok, env); WaitsFor(s', i, tok.id) && !HasToken(s', i, tok.id)
  {
    RegisterBoundaryAdds(s, d, d.order, tok.currentNode, i, tok.id, env);
    hide RegisterBoundary, Sane;
  }

  /** A call activity parks its token outside the token map, so its boundary timers and messages name a
      token that is not there: parking is safe exactly when the activity has none. */
  lemma CallActivityBoundaries(s: State, d: ProcessDefinition, i: Uuid, tok: Token, env: Env)
    requires Sane(s) && NoDanglingEntries(s) && i in s.instances && tok.id != NIL && tok.id !in s.instances[i].tokens
    requires Enumerates(d.order, d.nodes.Keys)
    ensures NoDanglingEntries(WaitCall(s, d, i, tok, env))
       <==> BoundaryTimersOf(d, tok.currentNode) == {} && BoundaryMessagesOf(d, tok.currentNode) == {}
  {
    var at := tok.currentNode;
    if BoundaryTimersOf(d, at) == {} && BoundaryMessagesOf(d, at) == {} {
      WaitCallShape(s, d, i, tok, env);
      hide WaitCall, NoDanglingEntries, Sane;
      SameTokensNoDangling(s, i, ParkedOnCall(s, i, tok), s.nextId + 1);
    } else {
      var n: string :| n in BoundaryTimersOf(d, at) || n in BoundaryMessagesOf(d, at);
      BoundaryIsNode(d, at, n);
      hide WaitCall, NoDanglingEntries, Sane, RegisterBoundary, WaitsFor;
      RegisteringAddsWaits(s, d, d.order, at, i, tok.id, env, n);
      CallWaits(s, d, i, tok, env);
      WaitsForMissingTokenDangle(WaitCall(s, d, i, tok, env), i, tok.id);
    }
  }

  // ---- Recurring timers that interrupt ----

  lemma RescheduleKeepsInstances(mid: State, e: Entry<TimerInfo>, env: Env)
    ensures Reschedule(mid, e, env).instances == mid.instances
  {}

  lemma RescheduledDangles(mid: State, e: Entry<TimerInfo>, env: Env)
    requires NoDanglingEntries(mid) && e.tokenId != NIL && e.instanceId in mid.instances
    ensures NoDanglingEntries(Reschedule(mid, e, env)) <==> (Repeats(e, env) ==> HasToken(mid, e.instanceId, e.tokenId))
  {
    if Repeats(e, env) {
      var added := Reschedule(mid, e, env).timers[mid.nextId];
      assert added.tokenId == e.tokenId && added.instanceId == e.instanceId;
    }
  }

  /** `node` is outside activities, or the activity the timer is attached to. */
  ghost predicate AtHome(d: ProcessDefinition, e: Entry<TimerInfo>, node: string) {
    OnActivity(d, node) ==> e.nodeId in BoundaryTimersOf(d, node)
  }

  /** A timer that interrupts takes its token on, and is scheduled again under the same token when it
      repeats. Whatever the token's way was: the new timer dangles exactly when the token is not stored
      again by then, and it fits exactly when the token stands outside activities or on the activity the
      timer is attached to. */
  lemma InterruptingTimerDangles(s: State, id: Uuid, defOrder: seq<Uuid>, env: Env)
    requires Integrity(s) && id in s.timers && s.timers[id].tokenId != NIL
    requires HasToken(s, s.timers[id].instanceId, s.timers[id].tokenId)
    requires s.instances[s.timers[id].instanceId].definitionKey in s.definitions
    requires !NonInterruptingTimer(DefOf(s, s.timers[id].instanceId), s.timers[id].nodeId)
    requires FireTimer(s, id, defOrder, env).1.Done?
    ensures var e := s.timers[id]; var i, t, d := e.instanceId, e.tokenId, DefOf(s, e.instanceId);
      var s' := FireTimer(s, id, defOrder, env).0;
      && i in s'.instances
      && (NoDanglingEntries(s') <==> (Repeats(e, env) ==> t in s'.instances[i].tokens))
      && (Integrity(s') <==> (Repeats(e, env) ==>
         t in s'.instances[i].tokens && AtHome(d, e, s'.instances[i].tokens[t].currentNode)))
  {
    var e, mid := s.timers[id], ResumeTimer(s, id, defOrder, env).0;
    TimerToken(s, id);
    BoundTimerResumes(s, id, defOrder, env);
    hide Integrity, ResumeTimer, NoDanglingEntries, Steady, Repeats, Reschedule;
    RescheduleKeepsInstances(mid, e, env);
    RescheduleKeepsIff(mid, e, env);
    IntegrityMeansNoDangling(mid);
    RescheduledDangles(mid, e, env);
  }

  /** A timer that interrupts leads its token straight to a node where tokens rest: the timer that follows
      dangles exactly when it repeats and that node is an end. */
  lemma StraightTimerDangles(s: State, id: Uuid, next: string, defOrder: seq<Uuid>, env: Env)
    requires Integrity(s) && TimerLeadsTo(s, id, next)
    requires !NonInterruptingTimer(DefOf(s, s.timers[id].instanceId), s.timers[id].nodeId)
    requires |env.steps| == 1
    requires var e := s.timers[id]; var tok := s.instances[e.instanceId].tokens[e.tokenId];
      Parking.Rests(DefOf(s, e.instanceId), tok.(currentNode := next), env.steps[0])
    ensures var e := s.timers[id]; var d := DefOf(s, e.instanceId);
      var (s', r) := FireTimer(s, id, defOrder, env);
      && r == Done
      && (NoDanglingEntries(s') <==> !(Repeats(e, env) && d.nodes[next].EndEvent?))
      && (Integrity(s') <==> (Repeats(e, env) ==> !d.nodes[next].EndEvent? && AtHome(d, e, next)))
  {
    var e := s.timers[id];
    var i, t := e.instanceId, e.tokenId;
    var mid := ResumeTimer(s, id, defOrder, env).0;
    var h := TimerHandover(s, id, next);
    assert h == Interrupting(s, i, t, Running, s.instances[i].tokens[t].variables, next);
    TimerHandsOver(s, id, next, defOrder, env);
    hide Integrity, ResumeTimer, FireTimer, NoDanglingEntries, TakenOn, Parking.HasWork, Parking.OnlyFor, Sane;
    hide DropTaskAt, NonInterruptingTimer, Repeats, AtHome, Parking.Rests;
    hide RestedAfter;
    HandedOverRests(s, ResumeTimer(s, id, defOrder, env), h, env);
    RestedParts(s, mid, h, DefOf(s, i).nodes[next], env.steps[0].synced);
    InterruptingTimerDangles(s, id, defOrder, env);
    RescheduleKeepsInstances(mid, e, env);
  }
}
