/** The state of the workflow engine: definitions, instances and the four maps of pending work
    (engine-core/src/runtime, engine-core/src/engine/mod.rs). */
module EngineState {
  import opened Values
  import opened Definition

  datatype ActiveToken = ActiveToken(token: Token, forkId: Option<string>, branchIndex: nat, completed: bool)

  datatype JoinBarrier = JoinBarrier(gatewayNodeId: string, expectedCount: nat, arrivedTokens: seq<Token>)

  datatype MultiInstanceProgress = MultiInstanceProgress(nodeId: string, total: nat, completed: nat)

  datatype InstanceState =
    | Running
    | WaitingOnUserTask(task: Uuid)
    | WaitingOnServiceTask(task: Uuid)
    | WaitingOnTimer(timer: Uuid)
    | WaitingOnMessage(message: Uuid)
    | WaitingOnEventBasedGateway
    | ParallelExecution(activeTokenCount: nat)
    | WaitingOnCallActivity(subInstance: Uuid, token: Token)
    | Completed
    | CompletedWithError(code: string)
    | Suspended(previous: InstanceState)
  {
    predicate Terminal() {
      Completed? || CompletedWithError?
    }
  }

  datatype Instance = Instance(
    definitionKey: Uuid,
    businessKey: string,
    state: InstanceState,
    currentNode: string,
    variables: Variables,
    tokens: map<Uuid, Token>,
    activeTokens: seq<ActiveToken>,
    joinBarriers: map<string, JoinBarrier>,
    multiInstance: map<string, MultiInstanceProgress>)
  {
    /** `Running` unless several branches are active. */
    function Resumed(): Instance {
      if state.ParallelExecution? then this else this.(state := Running)
    }
  }

  /** A pending entry: the four kinds of pending work share these fields. */
  datatype Entry<+K> = Entry(id: Uuid, instanceId: Uuid, nodeId: string, tokenId: Uuid, data: K)

  datatype UserInfo = UserInfo(assignee: string)

  datatype ServiceInfo = ServiceInfo(
    definitionKey: Uuid,
    topic: string,
    workerId: Option<string>,
    lockExpiration: Option<Time>,
    retries: int,
    errorMessage: Option<string>,
    errorDetails: Option<string>)

  /** `origin` is not in the source: it names the first timer of a chain of rescheduled timers. */
  datatype TimerInfo = TimerInfo(
    expiresAt: Time,
    timerDef: Option<TimerDefinition>,
    remaining: Option<nat>,
    origin: Uuid)

  datatype CatchInfo = CatchInfo(messageName: string)

  type UserTasks = map<Uuid, Entry<UserInfo>>
  type ServiceTasks = map<Uuid, Entry<ServiceInfo>>
  type Timers = map<Uuid, Entry<TimerInfo>>
  type Catches = map<Uuid, Entry<CatchInfo>>

  /** A wait (timer or message catch) that was taken from its map to resume a token. */
  datatype Firing = TimerFired(id: Uuid, origin: Uuid) | CatchFired(id: Uuid)

  /** `nextId` is the supply of fresh ids. `fired` and `consumed` stand for the history the engine
      records: the waits that fired and the service tasks that were completed, in order. */
  datatype State = State(
    definitions: map<Uuid, ProcessDefinition>,
    instances: map<Uuid, Instance>,
    userTasks: UserTasks,
    serviceTasks: ServiceTasks,
    timers: Timers,
    catches: Catches,
    nextId: Uuid,
    fired: seq<Firing>,
    consumed: seq<Uuid>)
  {
    function WithInstance(i: Uuid, inst: Instance): State {
      this.(instances := instances[i := inst])
    }
  }

  // ---- Pending maps: what `retain` and `filter` select ----

  function OfInstance<K>(m: map<Uuid, Entry<K>>, i: Uuid): map<Uuid, Entry<K>> {
    map id | id in m && m[id].instanceId == i :: m[id]
  }

  function DropInstance<K>(m: map<Uuid, Entry<K>>, i: Uuid): map<Uuid, Entry<K>> {
    map id | id in m && m[id].instanceId != i :: m[id]
  }

  function DropToken<K>(m: map<Uuid, Entry<K>>, i: Uuid, t: Uuid): map<Uuid, Entry<K>> {
    map id | id in m && !(m[id].instanceId == i && m[id].tokenId == t) :: m[id]
  }

  function DropNodes<K>(m: map<Uuid, Entry<K>>, i: Uuid, nodes: set<string>): map<Uuid, Entry<K>> {
    map id | id in m && !(m[id].instanceId == i && m[id].nodeId in nodes) :: m[id]
  }

  function DropTaskAt<K>(m: map<Uuid, Entry<K>>, i: Uuid, t: Uuid, node: string): map<Uuid, Entry<K>> {
    map id | id in m && !(m[id].instanceId == i && m[id].nodeId == node && m[id].tokenId == t) :: m[id]
  }

  /** No entry of `m` refers to token `t` of instance `i`. */
  ghost predicate Unreferenced<K>(m: map<Uuid, Entry<K>>, i: Uuid, t: Uuid) {
    forall id <- m :: !(m[id].instanceId == i && m[id].tokenId == t)
  }

  ghost predicate Detached(s: State, i: Uuid, t: Uuid) {
    && Unreferenced(s.userTasks, i, t) && Unreferenced(s.serviceTasks, i, t)
    && Unreferenced(s.timers, i, t) && Unreferenced(s.catches, i, t)
  }

  // ---- Boundary events attached to a node ----

  function BoundaryTimersOf(d: ProcessDefinition, node: string): set<string> {
    set n | n in d.nodes && d.nodes[n].BoundaryTimerEvent? && d.nodes[n].attachedTo == node
  }

  function BoundaryMessagesOf(d: ProcessDefinition, node: string): set<string> {
    set n | n in d.nodes && d.nodes[n].BoundaryMessageEvent? && d.nodes[n].attachedTo == node
  }

  predicate NonInterruptingTimer(d: ProcessDefinition, node: string) {
    node in d.nodes && d.nodes[node].BoundaryTimerEvent? && !d.nodes[node].cancelActivity
  }

  predicate NonInterruptingMessage(d: ProcessDefinition, node: string) {
    node in d.nodes && d.nodes[node].BoundaryMessageEvent? && !d.nodes[node].cancelActivity
  }

  predicate Recurring(e: Entry<TimerInfo>) {
    e.data.timerDef.Some? && e.data.timerDef.value.IsRecurring()
  }

  // ---- Referential integrity ----

  type Definitions = map<Uuid, ProcessDefinition>
  type Instances = map<Uuid, Instance>

  /** Where a pending entry's instance and token lead: to a token standing on a node, to an instance
      without that token, or nowhere. */
  datatype Place = Nowhere | NoToken | At(d: ProcessDefinition, node: string)

  ghost function PlaceOf(defs: Definitions, insts: Instances, i: Uuid, t: Uuid): Place {
    if i !in insts || insts[i].definitionKey !in defs then Nowhere
    else if t !in insts[i].tokens then NoToken
    else At(defs[insts[i].definitionKey], insts[i].tokens[t].currentNode)
  }

  ghost function EntryPlace<K>(defs: Definitions, insts: Instances, e: Entry<K>): Place {
    PlaceOf(defs, insts, e.instanceId, e.tokenId)
  }

  predicate OnActivity(d: ProcessDefinition, node: string) {
    node in d.nodes && d.nodes[node].IsActivity()
  }

  /** A task refers to a token that stands on the task's node, which is a task of the right kind. */
  ghost predicate UserOk(p: Place, e: Entry<UserInfo>) {
    p.At? && p.node == e.nodeId && p.node in p.d.nodes && p.d.nodes[p.node].UserTask?
  }

  ghost predicate ServiceOk(p: Place, e: Entry<ServiceInfo>) {
    p.At? && p.node == e.nodeId && p.node in p.d.nodes && p.d.nodes[p.node].ServiceTask?
  }

  /** A definition in which only non-interrupting boundary timers recur. */
  ghost predicate Steady(d: ProcessDefinition) {
    && (forall n <- d.nodes :: d.nodes[n].TimerCatchEvent? ==> !d.nodes[n].timer.IsRecurring())
    && (forall n <- d.nodes ::
          d.nodes[n].BoundaryTimerEvent? && d.nodes[n].timer.IsRecurring() ==> !d.nodes[n].cancelActivity)
  }

  /** A timer with a token names a live token; while that token stands on an activity, the timer is a
      boundary timer of that activity; and where the definition says so, only timers that do not
      interrupt recur. */
  ghost predicate TimerOk(p: Place, e: Entry<TimerInfo>) {
    if e.tokenId == NIL then !p.Nowhere?
    else
      && p.At?
      && (OnActivity(p.d, p.node) ==> e.nodeId in BoundaryTimersOf(p.d, p.node))
      && (Steady(p.d) && Recurring(e) ==> NonInterruptingTimer(p.d, e.nodeId))
  }

  ghost predicate CatchOk(p: Place, e: Entry<CatchInfo>) {
    if e.tokenId == NIL then !p.Nowhere?
    else p.At? && (OnActivity(p.d, p.node) ==> e.nodeId in BoundaryMessagesOf(p.d, p.node))
  }

  ghost predicate Keyed<K>(m: map<Uuid, Entry<K>>, next: Uuid) {
    forall id <- m :: m[id].id == id && 0 < id < next
  }

  /** At most one entry per token of an instance. */
  ghost predicate OnePerToken<K>(m: map<Uuid, Entry<K>>) {
    forall a, b :: a in m && b in m && m[a].instanceId == m[b].instanceId && m[a].tokenId == m[b].tokenId ==> a == b
  }

  ghost predicate UsersOk(defs: Definitions, insts: Instances, m: UserTasks) {
    forall id <- m :: UserOk(EntryPlace(defs, insts, m[id]), m[id])
  }

  ghost predicate ServicesOk(defs: Definitions, insts: Instances, m: ServiceTasks) {
    forall id <- m :: ServiceOk(EntryPlace(defs, insts, m[id]), m[id])
  }

  ghost predicate TimersOk(defs: Definitions, insts: Instances, m: Timers) {
    forall id <- m :: TimerOk(EntryPlace(defs, insts, m[id]), m[id])
  }

  ghost predicate CatchesOk(defs: Definitions, insts: Instances, m: Catches) {
    forall id <- m :: CatchOk(EntryPlace(defs, insts, m[id]), m[id])
  }

  ghost predicate TokensOk(tokens: map<Uuid, Token>, next: Uuid) {
    forall t <- tokens :: 0 < t < next && tokens[t].id == t
  }

  ghost predicate InstancesOk(defs: Definitions, insts: Instances, next: Uuid) {
    forall i <- insts :: 0 < i < next && insts[i].definitionKey in defs && TokensOk(insts[i].tokens, next)
  }

  /** A definition without timer or message boundary events on call activities. */
  ghost predicate PlainCalls(d: ProcessDefinition) {
    forall n <- d.nodes :: d.nodes[n].CallActivity? ==> BoundaryTimersOf(d, n) == {} && BoundaryMessagesOf(d, n) == {}
  }

  ghost predicate DefinitionsOk(defs: Definitions) {
    forall k <- defs :: PlainCalls(defs[k])
  }

  ghost predicate AllSteady(defs: Definitions) {
    forall k <- defs :: Steady(defs[k])
  }

  ghost predicate IdsOk(s: State) {
    && s.nextId > 0 && Keyed(s.userTasks, s.nextId) && Keyed(s.serviceTasks, s.nextId)
    && Keyed(s.timers, s.nextId) && Keyed(s.catches, s.nextId)
  }

  /** Every id in use was drawn: what fresh ids rely on. All calls keep this, on all definitions. */
  ghost predicate Sane(s: State) {
    IdsOk(s) && forall i <- s.instances :: 0 < i < s.nextId
  }

  ghost predicate Integrity(s: State) {
    && DefinitionsOk(s.definitions) && InstancesOk(s.definitions, s.instances, s.nextId) && IdsOk(s)
    && UsersOk(s.definitions, s.instances, s.userTasks) && OnePerToken(s.userTasks)
    && ServicesOk(s.definitions, s.instances, s.serviceTasks) && OnePerToken(s.serviceTasks)
    && TimersOk(s.definitions, s.instances, s.timers)
    && CatchesOk(s.definitions, s.instances, s.catches)
  }

  ghost predicate HasToken(s: State, i: Uuid, t: Uuid) {
    i in s.instances && t in s.instances[i].tokens
  }

  /** The definition instance `i` runs on. */
  ghost function DefOf(s: State, i: Uuid): ProcessDefinition
    requires i in s.instances && s.instances[i].definitionKey in s.definitions
  {
    s.definitions[s.instances[i].definitionKey]
  }

  /** The consequence a caller sees: every pending entry names a live instance and, unless it belongs
      to the whole instance, a live token of it. */
  ghost predicate NoDanglingEntries(s: State) {
    && (forall id <- s.userTasks :: HasToken(s, s.userTasks[id].instanceId, s.userTasks[id].tokenId))
    && (forall id <- s.serviceTasks :: HasToken(s, s.serviceTasks[id].instanceId, s.serviceTasks[id].tokenId))
    && (forall id <- s.timers :: s.timers[id].instanceId in s.instances
          && (s.timers[id].tokenId != NIL ==> HasToken(s, s.timers[id].instanceId, s.timers[id].tokenId)))
    && (forall id <- s.catches :: s.catches[id].instanceId in s.instances
          && (s.catches[id].tokenId != NIL ==> HasToken(s, s.catches[id].instanceId, s.catches[id].tokenId)))
  }

  lemma IntegrityMeansNoDangling(s: State)
    requires Integrity(s)
    ensures NoDanglingEntries(s)
  {}

  // ---- What one instance looks like from outside ----

  datatype InstanceView = InstanceView(
    inst: Option<Instance>,
    userTasks: UserTasks,
    serviceTasks: ServiceTasks,
    timers: Timers,
    catches: Catches)

  function View(s: State, i: Uuid): InstanceView {
    InstanceView(
      if i in s.instances then Some(s.instances[i]) else None,
      OfInstance(s.userTasks, i), OfInstance(s.serviceTasks, i), OfInstance(s.timers, i), OfInstance(s.catches, i))
  }

  // ---- What may happen to the pending maps when an instance runs on ----

  /** Entries after are entries before, or new ones with fresh ids. */
  ghost predicate KeptOrNew<K>(before: map<Uuid, Entry<K>>, after: map<Uuid, Entry<K>>, next: Uuid) {
    forall id <- after :: id >= next || (id in before && after[id] == before[id])
  }

  ghost predicate NewUnlocked(after: ServiceTasks, next: Uuid) {
    forall id <- after :: id >= next ==> after[id].data.workerId.None? && after[id].data.lockExpiration.None?
  }

  /** New timers start chains of their own, without a limit on repetitions. */
  ghost predicate NewChains(after: Timers, next: Uuid) {
    forall id <- after :: id >= next ==> after[id].data.origin == id && after[id].data.remaining.None?
  }

  /** A step that only removes pending entries and adds fresh ones, and fires or consumes nothing. */
  ghost predicate RunsOn(s: State, s': State) {
    && s.nextId <= s'.nextId && s'.definitions == s.definitions
    && s'.fired == s.fired && s'.consumed == s.consumed
    && KeptOrNew(s.userTasks, s'.userTasks, s.nextId)
    && KeptOrNew(s.serviceTasks, s'.serviceTasks, s.nextId) && NewUnlocked(s'.serviceTasks, s.nextId)
    && KeptOrNew(s.timers, s'.timers, s.nextId) && NewChains(s'.timers, s.nextId)
    && KeptOrNew(s.catches, s'.catches, s.nextId)
  }

  /** Instances keep their definitions; new ones run on a registered definition. */
  ghost predicate KeysKept(s: State, s': State) {
    && s'.definitions == s.definitions
    && forall j <- s'.instances ::
         || (j in s.instances && s'.instances[j].definitionKey == s.instances[j].definitionKey)
         || s'.instances[j].definitionKey in s.definitions
  }

  lemma RunsOnTransitive(a: State, b: State, c: State)
    requires RunsOn(a, b) && RunsOn(b, c)
    ensures RunsOn(a, c)
  {}

  /** Entries of instances other than `i` are the same in both maps. */
  ghost predicate SameElsewhere<K>(before: map<Uuid, Entry<K>>, after: map<Uuid, Entry<K>>, i: Uuid) {
    && (forall id <- before :: before[id].instanceId != i ==> id in after && after[id] == before[id])
    && (forall id <- after :: after[id].instanceId != i ==> id in before && before[id] == after[id])
  }

  /** A step that leaves every instance but `i`, and its pending entries, alone. */
  ghost predicate TouchesOnly(s: State, s': State, i: Uuid) {
    && (forall j :: j != i ==> (j in s.instances <==> j in s'.instances))
    && (forall j <- s.instances :: j != i && j in s'.instances ==> s'.instances[j] == s.instances[j])
    && SameElsewhere(s.userTasks, s'.userTasks, i) && SameElsewhere(s.serviceTasks, s'.serviceTasks, i)
    && SameElsewhere(s.timers, s'.timers, i) && SameElsewhere(s.catches, s'.catches, i)
  }

  lemma TouchesOnlyTransitive(a: State, b: State, c: State, i: Uuid)
    requires TouchesOnly(a, b, i) && TouchesOnly(b, c, i)
    ensures TouchesOnly(a, c, i)
  {}

  lemma SameElsewhereSameView<K>(before: map<Uuid, Entry<K>>, after: map<Uuid, Entry<K>>, i: Uuid, j: Uuid)
    requires SameElsewhere(before, after, i) && j != i
    ensures OfInstance(after, j) == OfInstance(before, j)
  {}

  lemma UntouchedView(s: State, s': State, i: Uuid, j: Uuid)
    requires TouchesOnly(s, s', i) && j != i
    ensures View(s', j) == View(s, j)
  {
    SameElsewhereSameView(s.userTasks, s'.userTasks, i, j);
    SameElsewhereSameView(s.serviceTasks, s'.serviceTasks, i, j);
    SameElsewhereSameView(s.timers, s'.timers, i, j);
    SameElsewhereSameView(s.catches, s'.catches, i, j);
  }
}
