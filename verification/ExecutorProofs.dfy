/** Batches keep referential integrity: what a token's steps do to the entries that refer to tokens. */
module ExecutorProofs {
  import opened Values
  import opened Definition
  import opened EngineState
  import opened Executor
  import opened ExecutorFrame

  /** The tokens in a batch's queue have distinct ids and no pending work of their own. */
  ghost predicate QueueOk(s: State, i: Uuid, q: seq<Token>) {
    Distinct(q) && forall k :: 0 <= k < |q| ==> 0 < q[k].id < s.nextId && Detached(s, i, q[k].id)
  }

  ghost predicate Distinct(q: seq<Token>) {
    forall a, b :: 0 <= a < b < |q| ==> q[a].id != q[b].id
  }

  ghost predicate InQueue(q: seq<Token>, t: Uuid) {
    exists k :: 0 <= k < |q| && q[k].id == t
  }

  /** Instance `i` keeps its definition and every token outside the queue. */
  ghost predicate KeepsOtherTokens(s: State, s': State, i: Uuid, q: seq<Token>) {
    && i in s.instances && i in s'.instances && s.nextId <= s'.nextId && s'.definitions == s.definitions
    && s'.instances[i].definitionKey == s.instances[i].definitionKey
    && forall t <- s.instances[i].tokens ::
         InQueue(q, t) || (t in s'.instances[i].tokens && s'.instances[i].tokens[t] == s.instances[i].tokens[t])
  }

  // ---- Instances change ----

  /** Every entry of `m` leads to the same place in both instance maps. */
  ghost predicate SamePlaces<K>(defs: Definitions, insts: Instances, insts': Instances, m: map<Uuid, Entry<K>>) {
    forall id <- m :: EntryPlace(defs, insts', m[id]) == EntryPlace(defs, insts, m[id])
  }

  ghost predicate Undisturbed(s: State, insts: Instances) {
    && SamePlaces(s.definitions, s.instances, insts, s.userTasks)
    && SamePlaces(s.definitions, s.instances, insts, s.serviceTasks)
    && SamePlaces(s.definitions, s.instances, insts, s.timers)
    && SamePlaces(s.definitions, s.instances, insts, s.catches)
  }

  lemma UndisturbedKeepsIntegrity(s: State, insts: Instances, next: Uuid)
    requires Integrity(s) && Undisturbed(s, insts) && next >= s.nextId
    requires InstancesOk(s.definitions, insts, next)
    ensures Integrity(s.(instances := insts, nextId := next))
  {}

  lemma EntryElsewhere<K>(defs: Definitions, insts: Instances, i: Uuid, inst: Instance, t: Uuid, m: map<Uuid, Entry<K>>)
    requires i in insts && inst.definitionKey == insts[i].definitionKey && inst.tokens - {t} == insts[i].tokens - {t}
    requires Unreferenced(m, i, t)
    ensures SamePlaces(defs, insts, insts[i := inst], m)
  {
    forall id | id in m ensures EntryPlace(defs, insts[i := inst], m[id]) == EntryPlace(defs, insts, m[id]) {
      var u := m[id].tokenId;
      assert u in inst.tokens - {t} <==> u in insts[i].tokens - {t};
      assert u in inst.tokens - {t} ==> (inst.tokens - {t})[u] == (insts[i].tokens - {t})[u];
    }
  }

  /** A token nothing refers to is added, changed or dropped. */
  lemma DetachedTokenKeepsIntegrity(s: State, i: Uuid, inst: Instance, t: Uuid)
    requires Integrity(s) && i in s.instances && Detached(s, i, t)
    requires inst.definitionKey == s.instances[i].definitionKey && inst.tokens - {t} == s.instances[i].tokens - {t}
    requires t in inst.tokens ==> 0 < t < s.nextId && inst.tokens[t].id == t
    ensures Integrity(s.WithInstance(i, inst))
  {
    EntryElsewhere(s.definitions, s.instances, i, inst, t, s.userTasks);
    EntryElsewhere(s.definitions, s.instances, i, inst, t, s.serviceTasks);
    EntryElsewhere(s.definitions, s.instances, i, inst, t, s.timers);
    EntryElsewhere(s.definitions, s.instances, i, inst, t, s.catches);
    forall u | u in inst.tokens ensures 0 < u < s.nextId && inst.tokens[u].id == u {
      if u != t {
        assert u in inst.tokens - {t} && (inst.tokens - {t})[u] == inst.tokens[u];
      }
    }
    UndisturbedKeepsIntegrity(s, s.instances[i := inst], s.nextId);
  }

  lemma SameTokensSamePlaces<K>(defs: Definitions, insts: Instances, i: Uuid, inst: Instance, m: map<Uuid, Entry<K>>)
    requires i in insts && inst.definitionKey == insts[i].definitionKey && inst.tokens == insts[i].tokens
    ensures SamePlaces(defs, insts, insts[i := inst], m)
  {}

  /** The instance changes, its tokens and definition do not; ids are drawn. */
  lemma SameTokensKeepIntegrity(s: State, i: Uuid, inst: Instance, next: Uuid)
    requires Integrity(s) && i in s.instances && next >= s.nextId
    requires inst.tokens == s.instances[i].tokens && inst.definitionKey == s.instances[i].definitionKey
    ensures Integrity(s.WithInstance(i, inst).(nextId := next))
  {
    SameTokensSamePlaces(s.definitions, s.instances, i, inst, s.userTasks);
    SameTokensSamePlaces(s.definitions, s.instances, i, inst, s.serviceTasks);
    SameTokensSamePlaces(s.definitions, s.instances, i, inst, s.timers);
    SameTokensSamePlaces(s.definitions, s.instances, i, inst, s.catches);
    UndisturbedKeepsIntegrity(s, s.instances[i := inst], next);
  }

  /** `m` is what is left of `m0` after some entries were removed. */
  ghost predicate Fewer<K>(m: map<Uuid, Entry<K>>, m0: map<Uuid, Entry<K>>) {
    forall id <- m :: id in m0 && m[id] == m0[id]
  }

  /** Removing pending entries keeps integrity. */
  lemma FewerEntriesKeepIntegrity(s: State, s': State)
    requires Integrity(s)
    requires s' == s.(userTasks := s'.userTasks, serviceTasks := s'.serviceTasks, timers := s'.timers,
      catches := s'.catches,
                      fired := s'.fired, consumed := s'.consumed)
    requires Fewer(s'.userTasks, s.userTasks) && Fewer(s'.serviceTasks, s.serviceTasks)
    requires Fewer(s'.timers, s.timers) && Fewer(s'.catches, s.catches)
    ensures Integrity(s')
  {}

  // ---- Registering waits ----

  /** A state in which token `tok` of instance `i` is stored and stands where its waits belong. */
  ghost predicate Standing(s: State, i: Uuid, tok: Token) {
    && Integrity(s) && HasToken(s, i, tok.id) && s.instances[i].tokens[tok.id] == tok
  }

  lemma CatchesAdd(defs: Definitions, insts: Instances, m: Catches, id: Uuid, e: Entry<CatchInfo>)
    requires CatchesOk(defs, insts, m) && CatchOk(EntryPlace(defs, insts, e), e)
    ensures CatchesOk(defs, insts, m[id := e])
  {}

  lemma TimersAdd(defs: Definitions, insts: Instances, m: Timers, id: Uuid, e: Entry<TimerInfo>)
    requires TimersOk(defs, insts, m) && TimerOk(EntryPlace(defs, insts, e), e)
    ensures TimersOk(defs, insts, m[id := e])
  {}

  /** Waits that fit are added under a fresh id. */
  lemma WaitsKeepIntegrity(s: State, timers: Timers, catches: Catches)
    requires Integrity(s)
    requires TimersOk(s.definitions, s.instances, timers) && Keyed(timers, s.nextId + 1)
    requires CatchesOk(s.definitions, s.instances, catches) && Keyed(catches, s.nextId + 1)
    ensures Integrity(s.(timers := timers, catches := catches, nextId := s.nextId + 1))
  {}

  lemma TimerAddKeeps(s: State, e: Entry<TimerInfo>)
    requires Integrity(s) && e.id == s.nextId && TimerOk(EntryPlace(s.definitions, s.instances, e), e)
    ensures Integrity(s.(timers := s.timers[s.nextId := e], nextId := s.nextId + 1))
  {
    TimersAdd(s.definitions, s.instances, s.timers, s.nextId, e);
    WaitsKeepIntegrity(s, s.timers[s.nextId := e], s.catches);
  }

  lemma CatchAddKeeps(s: State, e: Entry<CatchInfo>)
    requires Integrity(s) && e.id == s.nextId && CatchOk(EntryPlace(s.definitions, s.instances, e), e)
    ensures Integrity(s.(catches := s.catches[s.nextId := e], nextId := s.nextId + 1))
  {
    CatchesAdd(s.definitions, s.instances, s.catches, s.nextId, e);
    WaitsKeepIntegrity(s, s.timers, s.catches[s.nextId := e]);
  }

  lemma StandingPlace(s: State, i: Uuid, tok: Token)
    requires Standing(s, i, tok)
    ensures PlaceOf(s.definitions, s.instances, i, tok.id) == At(DefOf(s, i), tok.currentNode) && tok.id != NIL
  {
    assert TokensOk(s.instances[i].tokens, s.nextId);
  }

  lemma AddTimerKeeps(s: State, i: Uuid, tok: Token, node: string, timer: TimerDefinition, env: Env)
    requires Standing(s, i, tok)
    requires var d := DefOf(s, i);
      && (OnActivity(d, tok.currentNode) ==> node in BoundaryTimersOf(d, tok.currentNode))
      && (Steady(d) && timer.IsRecurring() ==> NonInterruptingTimer(d, node))
    ensures Standing(AddTimer(s, i, tok.id, node, timer, env), i, tok)
  {
    StandingPlace(s, i, tok);
    hide Integrity, BoundaryTimersOf, NonInterruptingTimer, Steady;
    TimerAddKeeps(s, AddTimer(s, i, tok.id, node, timer, env).timers[s.nextId]);
  }

  lemma AddCatchKeeps(s: State, i: Uuid, tok: Token, node: string, name: string)
    requires Standing(s, i, tok)
    requires var d := DefOf(s, i); OnActivity(d, tok.currentNode) ==> node in BoundaryMessagesOf(d, tok.currentNode)
    ensures Standing(AddCatch(s, i, tok.id, node, name), i, tok)
  {
    StandingPlace(s, i, tok);
    hide Integrity, BoundaryMessagesOf;
    CatchAddKeeps(s, AddCatch(s, i, tok.id, node, name).catches[s.nextId]);
  }

  lemma {:induction false} RegisterBoundaryKeeps(s: State, order: seq<string>, i: Uuid, tok: Token, env: Env)
    requires Standing(s, i, tok)
    ensures Standing(RegisterBoundary(s, DefOf(s, i), order, tok.currentNode, i, tok.id, env), i, tok)
    decreases |order|
  {
    if order != [] {
      var d, n := DefOf(s, i), order[0];
      var s1 := AddBoundary(s, d, n, tok.currentNode, i, tok.id, env);
      if n in BoundaryTimersOf(d, tok.currentNode) {
        AddTimerKeeps(s, i, tok, n, d.nodes[n].timer, env);
      } else if n in BoundaryMessagesOf(d, tok.currentNode) {
        AddCatchKeeps(s, i, tok, n, d.nodes[n].messageName);
      }
      assert DefOf(s1, i) == d;
      hide AddBoundary, Standing;
      RegisterBoundaryKeeps(s1, order[1..], i, tok, env);
    }
  }

  lemma {:induction false} RegisterEventsKeeps(s: State, flows: seq<SequenceFlow>, i: Uuid, tok: Token, env: Env)
    requires Standing(s, i, tok) && !OnActivity(DefOf(s, i), tok.currentNode)
    ensures Standing(RegisterEvents(s, DefOf(s, i), flows, i, tok.id, env), i, tok)
    decreases |flows|
  {
    if flows != [] {
      var d, n := DefOf(s, i), flows[0].target;
      var s1 := AddEvent(s, d, n, i, tok.id, env);
      if n in d.nodes && d.nodes[n].TimerCatchEvent? {
        AddTimerKeeps(s, i, tok, n, d.nodes[n].timer, env);
      } else if n in d.nodes && d.nodes[n].MessageCatchEvent? {
        AddCatchKeeps(s, i, tok, n, d.nodes[n].messageName);
      }
      assert DefOf(s1, i) == d;
      hide AddEvent, Standing;
      RegisterEventsKeeps(s1, flows[1..], i, tok, env);
    }
  }

  lemma KeyedAdds<K>(m: map<Uuid, Entry<K>>, next: Uuid, e: Entry<K>)
    requires Keyed(m, next) && OnePerToken(m) && Unreferenced(m, e.instanceId, e.tokenId) && e.id == next > 0
    ensures Keyed(m[next := e], next + 1) && OnePerToken(m[next := e])
  {}

  lemma UserAdds(defs: Definitions, insts: Instances, m: UserTasks, id: Uuid, e: Entry<UserInfo>)
    requires UsersOk(defs, insts, m) && UserOk(EntryPlace(defs, insts, e), e)
    ensures UsersOk(defs, insts, m[id := e])
  {}

  lemma ServiceAdds(defs: Definitions, insts: Instances, m: ServiceTasks, id: Uuid, e: Entry<ServiceInfo>)
    requires ServicesOk(defs, insts, m) && ServiceOk(EntryPlace(defs, insts, e), e)
    ensures ServicesOk(defs, insts, m[id := e])
  {}

  /** Adding fresh tasks that fit keeps integrity. */
  lemma MapsKeepIntegrity(s: State, users: UserTasks, services: ServiceTasks, next: Uuid)
    requires Integrity(s) && next >= s.nextId
    requires UsersOk(s.definitions, s.instances, users) && OnePerToken(users) && Keyed(users, next)
    requires ServicesOk(s.definitions, s.instances, services) && OnePerToken(services) && Keyed(services, next)
    ensures Integrity(s.(userTasks := users, serviceTasks := services, nextId := next))
  {}

  lemma UserTaskFits(b: State, i: Uuid, tok: Token, assignee: string)
    requires Standing(b, i, tok) && Unreferenced(b.userTasks, i, tok.id)
    requires tok.currentNode in DefOf(b, i).nodes && DefOf(b, i).nodes[tok.currentNode].UserTask?
    ensures Integrity(AddUserTask(b, i, tok, assignee))
  {
    var e := Entry(b.nextId, i, tok.currentNode, tok.id, UserInfo(assignee));
    KeyedAdds(b.userTasks, b.nextId, e);
    UserAdds(b.definitions, b.instances, b.userTasks, b.nextId, e);
    MapsKeepIntegrity(b, b.userTasks[b.nextId := e], b.serviceTasks, b.nextId + 1);
  }

  lemma ServiceTaskFits(b: State, i: Uuid, tok: Token, d: ProcessDefinition, topic: string)
    requires Standing(b, i, tok) && Unreferenced(b.serviceTasks, i, tok.id)
    requires tok.currentNode in DefOf(b, i).nodes && DefOf(b, i).nodes[tok.currentNode].ServiceTask?
    ensures Integrity(AddServiceTask(b, i, tok, d, topic))
  {
    var e := AddServiceTask(b, i, tok, d, topic).serviceTasks[b.nextId];
    KeyedAdds(b.serviceTasks, b.nextId, e);
    ServiceAdds(b.definitions, b.instances, b.serviceTasks, b.nextId, e);
    MapsKeepIntegrity(b, b.userTasks, b.serviceTasks[b.nextId := e], b.nextId + 1);
  }

  // ---- One step ----

  /** How a state and a queue relate to those one or more steps earlier. */
  ghost predicate Follows(s: State, q: seq<Token>, s': State, q': seq<Token>, i: Uuid) {
    KeepsOtherTokens(s, s', i, q) && forall k :: 0 <= k < |q'| ==> q'[k].id >= s.nextId || InQueue(q, q'[k].id)
  }

  ghost predicate StepGood(s: State, q: seq<Token>, s': State, q': seq<Token>, i: Uuid) {
    Integrity(s') && QueueOk(s', i, q') && Follows(s, q, s', q', i)
  }

  ghost predicate Ready(s: State, i: Uuid, tok: Token, rest: seq<Token>) {
    Integrity(s) && i in s.instances && QueueOk(s, i, [tok] + rest)
  }

  lemma HeadDetached(s: State, i: Uuid, tok: Token, rest: seq<Token>)
    requires Ready(s, i, tok, rest)
    ensures 0 < tok.id < s.nextId && Detached(s, i, tok.id) && QueueOk(s, i, rest)
    ensures forall k :: 0 <= k < |rest| ==> rest[k].id != tok.id && InQueue([tok] + rest, rest[k].id)
    ensures InQueue([tok] + rest, tok.id)
  {
    var q := [tok] + rest;
    assert q[0] == tok;
    assert forall k :: 0 <= k < |rest| ==> q[k + 1] == rest[k];
  }

  /** New entries of the head token only: the rest of the queue stays without pending work. */
  ghost predicate OnlyHeadAdded<K>(m: map<Uuid, Entry<K>>, m': map<Uuid, Entry<K>>, t: Uuid) {
    forall id <- m' :: (id in m && m'[id] == m[id]) || m'[id].tokenId == t
  }

  lemma RestStaysDetached(s: State, s': State, i: Uuid, tok: Token, rest: seq<Token>)
    requires Ready(s, i, tok, rest) && s.nextId <= s'.nextId
    requires OnlyHeadAdded(s.userTasks, s'.userTasks, tok.id) && OnlyHeadAdded(s.serviceTasks, s'.serviceTasks, tok.id)
    requires OnlyHeadAdded(s.timers, s'.timers, tok.id) && OnlyHeadAdded(s.catches, s'.catches, tok.id)
    ensures QueueOk(s', i, rest)
  {
    HeadDetached(s, i, tok, rest);
  }

  lemma StoreTokenStands(s: State, i: Uuid, tok: Token, rest: seq<Token>)
    requires Ready(s, i, tok, rest)
    ensures Standing(StoreToken(s, i, tok), i, tok)
    ensures DefOf(StoreToken(s, i, tok), i) == DefOf(s, i)
  {
    HeadDetached(s, i, tok, rest);
    var inst := StoreToken(s, i, tok).instances[i];
    assert inst.tokens - {tok.id} == s.instances[i].tokens - {tok.id};
    DetachedTokenKeepsIntegrity(s, i, inst, tok.id);
  }

  /** A head token that was stored, got entries of its own, and waits. */
  lemma WaitGood(s: State, w: State, i: Uuid, tok: Token, rest: seq<Token>, waiting: InstanceState)
    requires Ready(s, i, tok, rest) && Integrity(w) && s.nextId <= w.nextId && w.definitions == s.definitions
    requires w.instances == StoreToken(s, i, tok).instances
    requires OnlyHeadAdded(s.userTasks, w.userTasks, tok.id) && OnlyHeadAdded(s.serviceTasks, w.serviceTasks, tok.id)
    requires OnlyHeadAdded(s.timers, w.timers, tok.id) && OnlyHeadAdded(s.catches, w.catches, tok.id)
    ensures StepGood(s, [tok] + rest, Await(w, i, waiting), rest, i)
  {
    HeadDetached(s, i, tok, rest);
    RestStaysDetached(s, w, i, tok, rest);
    SameTokensKeepIntegrity(w, i, Await(w, i, waiting).instances[i], w.nextId);
  }

  lemma WaitUserGood(s: State, i: Uuid, tok: Token, rest: seq<Token>, env: Env)
    requires Ready(s, i, tok, rest)
    requires tok.currentNode in DefOf(s, i).nodes && DefOf(s, i).nodes[tok.currentNode].UserTask?
    ensures StepGood(s, [tok] + rest, WaitUser(s, DefOf(s, i), i, tok, env), rest, i)
  {
    var d, s1 := DefOf(s, i), StoreToken(s, i, tok);
    HeadDetached(s, i, tok, rest);
    StoreTokenStands(s, i, tok, rest);
    RegisterBoundaryKeeps(s1, d.order, i, tok, env);
    RegisterBoundaryAdds(s1, d, d.order, tok.currentNode, i, tok.id, env);
    var b := RegisterBoundary(s1, d, d.order, tok.currentNode, i, tok.id, env);
    UserTaskFits(b, i, tok, d.nodes[tok.currentNode].assignee);
    WaitGood(s, AddUserTask(b, i, tok, d.nodes[tok.currentNode].assignee), i, tok, rest, WaitingOnUserTask(b.nextId));
  }

  lemma WaitServiceGood(s: State, i: Uuid, tok: Token, rest: seq<Token>, env: Env)
    requires Ready(s, i, tok, rest)
    requires tok.currentNode in DefOf(s, i).nodes && DefOf(s, i).nodes[tok.currentNode].ServiceTask?
    ensures StepGood(s, [tok] + rest, WaitService(s, DefOf(s, i), i, tok, env), rest, i)
  {
    var d, s1 := DefOf(s, i), StoreToken(s, i, tok);
    HeadDetached(s, i, tok, rest);
    StoreTokenStands(s, i, tok, rest);
    RegisterBoundaryKeeps(s1, d.order, i, tok, env);
    RegisterBoundaryAdds(s1, d, d.order, tok.currentNode, i, tok.id, env);
    var b := RegisterBoundary(s1, d, d.order, tok.currentNode, i, tok.id, env);
    ServiceTaskFits(b, i, tok, d, d.nodes[tok.currentNode].topic);
    WaitGood(s, AddServiceTask(b, i, tok, d, d.nodes[tok.currentNode].topic), i, tok, rest,
      WaitingOnServiceTask(b.nextId));
  }

  lemma WaitTimerGood(s: State, i: Uuid, tok: Token, rest: seq<Token>, env: Env)
    requires Ready(s, i, tok, rest)
    requires tok.currentNode in DefOf(s, i).nodes && DefOf(s, i).nodes[tok.currentNode].TimerCatchEvent?
    ensures StepGood(s, [tok] + rest, WaitTimer(s, DefOf(s, i), i, tok, env), rest, i)
  {
    var timer := DefOf(s, i).nodes[tok.currentNode].timer;
    StoreTokenStands(s, i, tok, rest);
    AddTimerKeeps(StoreToken(s, i, tok), i, tok, tok.currentNode, timer, env);
    WaitGood(s, AddTimer(StoreToken(s, i, tok), i, tok.id, tok.currentNode, timer, env), i, tok, rest,
      WaitingOnTimer(s.nextId));
  }

  lemma WaitMessageGood(s: State, i: Uuid, tok: Token, rest: seq<Token>)
    requires Ready(s, i, tok, rest)
    requires tok.currentNode in DefOf(s, i).nodes && DefOf(s, i).nodes[tok.currentNode].MessageCatchEvent?
    ensures StepGood(s, [tok] + rest, WaitMessage(s, DefOf(s, i), i, tok), rest, i)
  {
    var name := DefOf(s, i).nodes[tok.currentNode].messageName;
    StoreTokenStands(s, i, tok, rest);
    AddCatchKeeps(StoreToken(s, i, tok), i, tok, tok.currentNode, name);
    WaitGood(s, AddCatch(StoreToken(s, i, tok), i, tok.id, tok.currentNode, name), i, tok, rest,
      WaitingOnMessage(s.nextId));
  }

  lemma WaitEventsGood(s: State, i: Uuid, tok: Token, rest: seq<Token>, env: Env)
    requires Ready(s, i, tok, rest) && !OnActivity(DefOf(s, i), tok.currentNode)
    ensures StepGood(s, [tok] + rest, WaitEvents(s, DefOf(s, i), i, tok, env), rest, i)
  {
    var d, s1 := DefOf(s, i), StoreToken(s, i, tok);
    StoreTokenStands(s, i, tok, rest);
    RegisterEventsKeeps(s1, d.NextNodes(tok.currentNode), i, tok, env);
    RegisterEventsAdds(s1, d, d.NextNodes(tok.currentNode), i, tok.id, env);
    WaitGood(s, RegisterEvents(s1, d, d.NextNodes(tok.currentNode), i, tok.id, env), i, tok, rest,
      WaitingOnEventBasedGateway);
  }

  // ---- Steps that register nothing ----

  /** No entry refers to an id that was not drawn yet. */
  lemma UndrawnDetached(s: State, i: Uuid, t: Uuid)
    requires Integrity(s) && t >= s.nextId
    ensures Detached(s, i, t)
  {
    assert forall id <- s.userTasks :: UserOk(EntryPlace(s.definitions, s.instances, s.userTasks[id]), s.userTasks[id]);
    assert forall id <- s.serviceTasks ::
      ServiceOk(EntryPlace(s.definitions, s.instances, s.serviceTasks[id]), s.serviceTasks[id]);
  }

  ghost predicate FromQueueOrDrawn(q: seq<Token>, q': seq<Token>, low: Uuid, high: Uuid) {
    forall k :: 0 <= k < |q'| ==> InQueue(q, q'[k].id) || low <= q'[k].id < high
  }

  /** Tokens from the old queue and newly drawn ones make a good queue. */
  lemma QueueGood(s: State, q: seq<Token>, i: Uuid, inst: Instance, next: Uuid, q': seq<Token>)
    requires Integrity(s) && QueueOk(s, i, q) && next >= s.nextId
    requires Distinct(q') && FromQueueOrDrawn(q, q', s.nextId, next)
    ensures QueueOk(s.WithInstance(i, inst).(nextId := next), i, q')
  {
    forall k | 0 <= k < |q'| ensures 0 < q'[k].id < next && Detached(s, i, q'[k].id) {
      if q'[k].id >= s.nextId {
        UndrawnDetached(s, i, q'[k].id);
      }
    }
  }

  /** Only the instance changes (not its tokens), ids are drawn, and the queue gets tokens that were in
      it or are new. */
  lemma InstanceStepGood(s: State, q: seq<Token>, i: Uuid, inst: Instance, next: Uuid, q': seq<Token>)
    requires Integrity(s) && QueueOk(s, i, q) && i in s.instances && next >= s.nextId
    requires inst.tokens == s.instances[i].tokens && inst.definitionKey == s.instances[i].definitionKey
    requires Distinct(q') && FromQueueOrDrawn(q, q', s.nextId, next)
    ensures StepGood(s, q, s.WithInstance(i, inst).(nextId := next), q', i)
  {
    SameTokensKeepIntegrity(s, i, inst, next);
    QueueGood(s, q, i, inst, next, q');
  }

  lemma FreshTokensGood(q: seq<Token>, rest: seq<Token>, more: seq<Token>, low: Uuid, high: Uuid)
    requires Distinct(rest) && forall k :: 0 <= k < |rest| ==> InQueue(q, rest[k].id) && rest[k].id < low
    requires forall k :: 0 <= k < |more| ==> more[k].id == low + k < high
    ensures Distinct(rest + more) && FromQueueOrDrawn(q, rest + more, low, high)
  {}

  lemma {:induction order} RegisterNothing(s: State, d: ProcessDefinition, order: seq<string>, at: string, i: Uuid,
      t: Uuid, env: Env)
    requires BoundaryTimersOf(d, at) == {} && BoundaryMessagesOf(d, at) == {}
    ensures RegisterBoundary(s, d, order, at, i, t, env) == s
    decreases |order|
  {}

  function ParkedOnCall(s: State, i: Uuid, tok: Token): Instance
    requires i in s.instances
  {
    var inst := s.instances[i];
    inst.(currentNode := tok.currentNode,
          state := if inst.state.ParallelExecution? then inst.state else WaitingOnCallActivity(s.nextId, tok))
  }

  lemma WaitCallShape(s: State, d: ProcessDefinition, i: Uuid, tok: Token, env: Env)
    requires i in s.instances
    requires BoundaryTimersOf(d, tok.currentNode) == {} && BoundaryMessagesOf(d, tok.currentNode) == {}
    ensures WaitCall(s, d, i, tok, env) == s.WithInstance(i, ParkedOnCall(s, i, tok)).(nextId := s.nextId + 1)
  {
    RegisterNothing(s, d, d.order, tok.currentNode, i, tok.id, env);
  }

  lemma ReadyDefined(s: State, i: Uuid, tok: Token, rest: seq<Token>)
    requires Ready(s, i, tok, rest)
    ensures s.instances[i].definitionKey in s.definitions
  {}

  lemma NothingOnCalls(s: State, i: Uuid, node: string)
    requires Integrity(s) && i in s.instances && node in DefOf(s, i).nodes && DefOf(s, i).nodes[node].CallActivity?
    ensures BoundaryTimersOf(DefOf(s, i), node) == {} && BoundaryMessagesOf(DefOf(s, i), node) == {}
  {
    assert PlainCalls(DefOf(s, i));
  }

  lemma ParkedGood(s: State, i: Uuid, tok: Token, rest: seq<Token>)
    requires Ready(s, i, tok, rest)
    ensures StepGood(s, [tok] + rest, s.WithInstance(i, ParkedOnCall(s, i, tok)).(nextId := s.nextId + 1), rest, i)
  {
    hide Integrity, StepGood, Detached;
    HeadDetached(s, i, tok, rest);
    InstanceStepGood(s, [tok] + rest, i, ParkedOnCall(s, i, tok), s.nextId + 1, rest);
  }

  lemma WaitCallGood(s: State, i: Uuid, tok: Token, rest: seq<Token>, env: Env)
    requires Ready(s, i, tok, rest)
    requires tok.currentNode in DefOf(s, i).nodes && DefOf(s, i).nodes[tok.currentNode].CallActivity?
    ensures StepGood(s, [tok] + rest, WaitCall(s, DefOf(s, i), i, tok, env), rest, i)
  {
    ReadyDefined(s, i, tok, rest);
    ReadyParts(s, i, tok, rest);
    hide Integrity, StepGood, Ready, QueueOk, WaitCall, BoundaryTimersOf, BoundaryMessagesOf, ParkedOnCall;
    NothingOnCalls(s, i, tok.currentNode);
    WaitCallShape(s, DefOf(s, i), i, tok, env);
    ParkedGood(s, i, tok, rest);
  }

  /** The head token leaves the token map for good. */
  lemma HeadGoneGood(s: State, i: Uuid, tok: Token, rest: seq<Token>, inst: Instance)
    requires Ready(s, i, tok, rest) && inst.definitionKey == s.instances[i].definitionKey
    requires inst.tokens == s.instances[i].tokens - {tok.id}
    ensures StepGood(s, [tok] + rest, s.WithInstance(i, inst), rest, i)
  {
    HeadDetached(s, i, tok, rest);
    assert inst.tokens - {tok.id} == s.instances[i].tokens - {tok.id};
    hide Integrity;
    DetachedTokenKeepsIntegrity(s, i, inst, tok.id);
  }

  lemma CompleteGood(s: State, i: Uuid, tok: Token, rest: seq<Token>, end: End)
    requires Ready(s, i, tok, rest)
    ensures StepGood(s, [tok] + rest, CompleteToken(s, i, tok, end), rest, i)
  {
    hide Integrity, StepGood, AllTokensCompleted, QueueOk;
    HeadGoneGood(s, i, tok, rest, CompleteToken(s, i, tok, end).instances[i]);
  }

  lemma TerminateGood(s: State, i: Uuid, q: seq<Token>)
    requires Integrity(s) && i in s.instances
    ensures StepGood(s, q, TerminateInstance(s, i), [], i)
  {
    var s' := TerminateInstance(s, i);
    SameTokensKeepIntegrity(s, i, s'.instances[i], s.nextId);
    FewerEntriesKeepIntegrity(s.WithInstance(i, s'.instances[i]), s');
  }

  lemma ForkGood(s: State, i: Uuid, tok: Token, rest: seq<Token>, targets: seq<string>, join: Option<string>)
    requires Ready(s, i, tok, rest)
    ensures var (s', q) := Fork(s, i, tok, targets, join); StepGood(s, [tok] + rest, s', rest + q, i)
  {
    var (s', q) := Fork(s, i, tok, targets, join);
    hide StepGood, Integrity, Detached;
    HeadDetached(s, i, tok, rest);
    var next := s.nextId + |targets|;
    FreshTokensGood([tok] + rest, rest, q, s.nextId, next);
    assert s' == s.WithInstance(i, s'.instances[i]).(nextId := next);
    InstanceStepGood(s, [tok] + rest, i, s'.instances[i], next, rest + q);
  }

  lemma ArriveShape(s: State, i: Uuid, tok: Token, expected: nat, early: bool)
    requires i in s.instances
    ensures var (s', q) := Arrive(s, i, tok, expected, early);
      && s.nextId <= s'.nextId && i in s'.instances && s' == s.WithInstance(i, s'.instances[i]).(nextId := s'.nextId)
      && s'.instances[i].tokens == s.instances[i].tokens
         && s'.instances[i].definitionKey == s.instances[i].definitionKey
      && forall k :: 0 <= k < |q| ==> q[k].id == s.nextId + k < s'.nextId
  {}

  lemma ArriveGood(s: State, i: Uuid, tok: Token, rest: seq<Token>, expected: nat, early: bool)
    requires Ready(s, i, tok, rest)
    ensures var (s', q) := Arrive(s, i, tok, expected, early); StepGood(s, [tok] + rest, s', rest + q, i)
  {
    var (s', q) := Arrive(s, i, tok, expected, early);
    HeadDetached(s, i, tok, rest);
    ArriveShape(s, i, tok, expected, early);
    FreshTokensGood([tok] + rest, rest, q, s.nextId, s'.nextId);
    hide Arrive, StepGood, Integrity, QueueOk;
    InstanceStepGood(s, [tok] + rest, i, s'.instances[i], s'.nextId, rest + q);
  }

  lemma SpawnGood(s: State, i: Uuid, tok: Token, rest: seq<Token>, main: string, spawned: seq<string>)
    requires Ready(s, i, tok, rest)
    ensures var (s', q) := Spawned(s, tok, main, spawned); StepGood(s, [tok] + rest, s', rest + q, i)
  {
    var (s', q) := Spawned(s, tok, main, spawned);
    hide Integrity, Detached, StepGood;
    HeadDetached(s, i, tok, rest);
    assert s.WithInstance(i, s.instances[i]).(nextId := s'.nextId) == s';
    InstanceStepGood(s, [tok] + rest, i, s.instances[i], s'.nextId, rest + q);
  }

  lemma ContinueGood(s: State, i: Uuid, tok: Token, rest: seq<Token>, next: Token)
    requires Ready(s, i, tok, rest) && next.id == tok.id
    ensures StepGood(s, [tok] + rest, s, rest + [next], i)
  {
    hide Integrity, Detached, StepGood;
    HeadDetached(s, i, tok, rest);
    InstanceStepGood(s, [tok] + rest, i, s.instances[i], s.nextId, rest + [next]);
    assert s.WithInstance(i, s.instances[i]).(nextId := s.nextId) == s;
  }

  lemma ActGood(s: State, i: Uuid, tok: Token, rest: seq<Token>, action: Action, env: Env)
    requires Ready(s, i, tok, rest) && CanAct(s, i, tok, action)
    ensures var (s', q') := Act(s, i, tok, rest, action, env); StepGood(s, [tok] + rest, s', q', i)
  {
    hide StepGood, Ready, WaitUser, WaitService, WaitTimer, WaitMessage, WaitEvents, WaitCall;
    hide Fork, Arrive, CompleteToken, Spawned, TerminateInstance;
    match action
    case Continue(node) => ContinueGood(s, i, tok, rest, Onward(DefOf(s, i).nodes[tok.currentNode], tok, node));
    case ContinueMultiple(targets, join) => ForkGood(s, i, tok, rest, targets, join);
    case WaitForJoin(expected, early) => ArriveGood(s, i, tok, rest, expected, early);
    case WaitForUser => WaitUserGood(s, i, tok, rest, env);
    case WaitForServiceTask => WaitServiceGood(s, i, tok, rest, env);
    case WaitForTimer => WaitTimerGood(s, i, tok, rest, env);
    case WaitForMessage => WaitMessageGood(s, i, tok, rest);
    case WaitForEventGroup => WaitEventsGood(s, i, tok, rest, env);
    case WaitForCallActivity => WaitCallGood(s, i, tok, rest, env);
    case Complete(end) => CompleteGood(s, i, tok, rest, end);
    case SpawnAndContinue(main, spawned) => SpawnGood(s, i, tok, rest, main, spawned);
    case Terminate => ReadyParts(s, i, tok, rest); TerminateGood(s, i, [tok] + rest);
  }

  lemma ReadyParts(s: State, i: Uuid, tok: Token, rest: seq<Token>)
    ensures Ready(s, i, tok, rest) <==> Integrity(s) && i in s.instances && QueueOk(s, i, [tok] + rest)
  {}

  // ---- Steps in sequence ----

  lemma FollowsTransitive(s: State, q: seq<Token>, s1: State, q1: seq<Token>, s2: State, q2: seq<Token>, i: Uuid)
    requires Integrity(s)
    requires Follows(s, q, s1, q1, i) && Follows(s1, q1, s2, q2, i)
    ensures Follows(s, q, s2, q2, i)
  {
    assert TokensOk(s.instances[i].tokens, s.nextId);
    forall t | t in s.instances[i].tokens && !InQueue(q, t)
      ensures t in s2.instances[i].tokens && s2.instances[i].tokens[t] == s.instances[i].tokens[t]
    {
      assert forall k :: 0 <= k < |q1| ==> q1[k].id != t;
    }
    forall k | 0 <= k < |q2| && q2[k].id < s.nextId ensures InQueue(q, q2[k].id) {
      var k1 :| 0 <= k1 < |q1| && q1[k1].id == q2[k].id;
    }
  }

  /** The scripts' part of a step: variables and the shown node change. */
  lemma PreludeGood(s: State, i: Uuid, head: Token, rest: seq<Token>, step: Step)
    requires Ready(s, i, head, rest)
    ensures StepGood(s, [head] + rest, Prelude(s, i, step), [head.(variables := step.variables)] + rest, i)
    ensures Ready(Prelude(s, i, step), i, head.(variables := step.variables), rest)
  {
    var tok := head.(variables := step.variables);
    HeadDetached(s, i, head, rest);
    assert ([tok] + rest)[0] == tok;
    InstanceStepGood(s, [head] + rest, i, Prelude(s, i, step).instances[i], s.nextId, [tok] + rest);
  }

  lemma StepGoodThen(s: State, q: seq<Token>, s1: State, q1: seq<Token>, s2: State, q2: seq<Token>, i: Uuid)
    requires Integrity(s) && StepGood(s, q, s1, q1, i) && StepGood(s1, q1, s2, q2, i)
    ensures StepGood(s, q, s2, q2, i)
  {
    FollowsTransitive(s, q, s1, q1, s2, q2, i);
  }

  lemma ApplyStepGood(s: State, i: Uuid, head: Token, rest: seq<Token>, step: Step, env: Env)
    requires Ready(s, i, head, rest) && CanStep(s, i, head, step)
    ensures var (s', q') := ApplyStep(s, i, head, rest, step, env); StepGood(s, [head] + rest, s', q', i)
  {
    var p, tok := Prelude(s, i, step), head.(variables := step.variables);
    hide Act, StepGood, Ready;
    ReadyParts(s, i, head, rest);
    PreludeGood(s, i, head, rest, step);
    ActGood(p, i, tok, rest, step.action, env);
    var (s', q') := Act(p, i, tok, rest, step.action, env);
    StepGoodThen(s, [head] + rest, p, [tok] + rest, s', q', i);
  }

  /** What a batch guarantees in the end. */
  ghost predicate BatchGood(s: State, i: Uuid, queue: seq<Token>, s': State) {
    Integrity(s') && KeepsOtherTokens(s, s', i, queue)
  }

  lemma BatchGoodAfterStep(s: State, i: Uuid, q: seq<Token>, s1: State, q1: seq<Token>, s2: State)
    requires Integrity(s) && StepGood(s, q, s1, q1, i) && BatchGood(s1, i, q1, s2)
    ensures BatchGood(s, i, q, s2)
  {
    FollowsTransitive(s, q, s1, q1, s2, [], i);
  }

  lemma StopGood(s: State, i: Uuid, queue: seq<Token>)
    requires Integrity(s) && i in s.instances
    ensures BatchGood(s, i, queue, s)
    ensures BatchGood(s, i, queue,
      s.WithInstance(i, s.instances[i].(state := CompletedWithError("EXECUTION_LIMIT_EXCEEDED"))))
  {
    SameTokensKeepIntegrity(s, i, s.instances[i].(state := CompletedWithError("EXECUTION_LIMIT_EXCEEDED")), s.nextId);
  }

  lemma StepGoodParts(s: State, q: seq<Token>, s': State, q': seq<Token>, i: Uuid)
    requires StepGood(s, q, s', q', i)
    ensures Integrity(s') && QueueOk(s', i, q') && i in s'.instances
  {}

  /** Every batch keeps referential integrity and the tokens outside its queue, whatever steps it takes
      and however it ends. */
  lemma {:induction false} BatchKeeps(s: State, i: Uuid, queue: seq<Token>, steps: seq<Step>, env: Env, count: nat)
    requires Integrity(s) && i in s.instances && QueueOk(s, i, queue)
    ensures BatchGood(s, i, queue, RunBatch(s, i, queue, steps, env, count).0)
    decreases |steps|
  {
    hide ApplyStep, QueueOk, Integrity, BatchGood, StepGood, Ready;
    if queue == [] || count >= MAX_EXECUTION_STEPS || steps == [] || !CanStep(s, i, queue[0], steps[0]) {
      StopGood(s, i, queue);
    } else {
      assert [queue[0]] + queue[1..] == queue;
      ReadyParts(s, i, queue[0], queue[1..]);
      ApplyStepGood(s, i, queue[0], queue[1..], steps[0], env);
      var (s1, q1) := ApplyStep(s, i, queue[0], queue[1..], steps[0], env);
      StepGoodParts(s, queue, s1, q1, i);
      BatchKeeps(s1, i, q1, steps[1..], env, count + 1);
      BatchGoodAfterStep(s, i, queue, s1, q1, RunBatch(s1, i, q1, steps[1..], env, count + 1).0);
    }
  }

  /** The same for a single token that has just been taken out of its wait. */
  lemma RunKeeps(s: State, i: Uuid, tok: Token, env: Env)
    requires Integrity(s) && i in s.instances && 0 < tok.id < s.nextId && Detached(s, i, tok.id)
    ensures BatchGood(s, i, [tok], Run(s, i, tok, env).0)
  {
    BatchKeeps(s, i, [tok], env.steps, env, 0);
  }
}
