/** The engine's calls as functions from state to state: what each call does, error paths included.
    Sections follow the files of engine-core/src/engine. */
module Operations {
  import opened Values
  import opened Condition
  import opened Definition
  import opened EngineState
  import opened Executor
  import Text

  // ---- Shared steps (mod.rs, executor/helpers.rs) ----

  /** `cancel_boundary_timers` and `cancel_boundary_message_catches`. */
  function CancelBoundary(s: State, i: Uuid, node: string): (r: State)
    ensures r == s.(timers := r.timers, catches := r.catches)
  {
    if i !in s.instances || s.instances[i].definitionKey !in s.definitions then s
    else
      var d := s.definitions[s.instances[i].definitionKey];
      s.(timers := DropNodes(s.timers, i, BoundaryTimersOf(d, node)),
         catches := DropNodes(s.catches, i, BoundaryMessagesOf(d, node)))
  }

  /** `clear_wait_states_for_token`. */
  function ClearWaits(s: State, i: Uuid, t: Uuid): State {
    s.(timers := DropToken(s.timers, i, t), catches := DropToken(s.catches, i, t))
  }

  /** `resolve_next_target`: the first flow without a condition or whose condition holds. */
  function ResolveNext(flows: seq<SequenceFlow>, variables: Variables): Option<string> {
    if flows == [] then None
    else if flows[0].condition.None? || EvaluateCondition(flows[0].condition.value, variables)
      then Some(flows[0].target)
    else ResolveNext(flows[1..], variables)
  }

  predicate IsSuspended(s: State, i: Uuid) {
    i in s.instances && s.instances[i].state.Suspended?
  }

  /** Takes the token on from node `from`: resolves the next node, shows it and runs the token there. */
  function MoveOn(s: State, i: Uuid, tok: Token, d: ProcessDefinition, from: string, env: Env): (State, Outcome) {
    match ResolveNext(d.NextNodes(from), tok.variables)
    case None => (s, Failed(InvalidDefinition))
    case Some(next) =>
      if i !in s.instances then (s, Failed(NoSuchInstance(i)))
      else Run(s.WithInstance(i, s.instances[i].(currentNode := next)), i, tok.(currentNode := next), env)
  }

  /** The instance after `t` was taken out of its token map. */
  function WithoutToken(s: State, i: Uuid, t: Uuid): State
    requires i in s.instances
  {
    s.WithInstance(i, s.instances[i].(tokens := s.instances[i].tokens - {t}))
  }

  /** The token leaves the task at `node`: boundary events are cancelled and the instance runs. */
  function LeaveTask(s: State, i: Uuid, t: Uuid, node: string): (r: State)
    requires i in s.instances
    ensures i in r.instances && r.instances[i].definitionKey == s.instances[i].definitionKey
      && r.definitions == s.definitions
  {
    var s' := CancelBoundary(WithoutToken(s, i, t), i, node);
    s'.WithInstance(i, s'.instances[i].Resumed())
  }

  /** The token's variables merged with those handed to the call. */
  function MergedToken(s: State, i: Uuid, t: Uuid, extra: Variables): Token
    requires i in s.instances && t in s.instances[i].tokens
  {
    s.instances[i].tokens[t].(variables := s.instances[i].tokens[t].variables + extra)
  }

  /** The instance shows `node`. */
  function Shown(s: State, i: Uuid, node: string): State
    requires i in s.instances
  {
    s.WithInstance(i, s.instances[i].(currentNode := node))
  }

  /** The end scripts ran: the token and the instance have the same variables. */
  function Synced(s: State, i: Uuid, variables: Variables): State
    requires i in s.instances
  {
    s.WithInstance(i, s.instances[i].(variables := variables))
  }

  /** The end scripts left these variables: instance and token get them, and the token moves on. */
  function Finish(s: State, i: Uuid, tok: Token, variables: Variables, node: string, env: Env): (State, Outcome)
    requires i in s.instances && s.instances[i].definitionKey in s.definitions
  {
    MoveOn(Synced(s, i, variables), i, tok.(variables := variables),
           s.definitions[s.instances[i].definitionKey], node, env)
  }

  // ---- user_task.rs ----

  function CompleteUserTask(s: State, id: Uuid, extra: Variables, env: Env): (State, Outcome) {
    if id !in s.userTasks then (s, Failed(TaskNotPending(id)))
    else
      var task := s.userTasks[id];
      var i, t := task.instanceId, task.tokenId;
      var s1 := s.(userTasks := s.userTasks - {id});
      if IsSuspended(s1, i) then (s1.(userTasks := s1.userTasks[id := task]), Failed(InstanceSuspended(i)))
      else if i !in s1.instances then (s1, Failed(NoSuchInstance(i)))
      else if t !in s1.instances[i].tokens then (s1, Failed(InvalidDefinition))
      else
        var tok := MergedToken(s1, i, t, extra);
        var s3 := Shown(LeaveTask(s1, i, t, task.nodeId), i, task.nodeId);
        if s3.instances[i].definitionKey !in s3.definitions
          then (s3, Failed(NoSuchDefinition(s3.instances[i].definitionKey)))
        else
          match env.endScript(tok.variables)
          case None => (RestoreUserTask(s3, id, task, tok), Failed(ScriptError))
          case Some(variables) => Finish(s3, i, tok, variables, task.nodeId, env)
  }

  /** The rollback of a user task whose end script failed. */
  function RestoreUserTask(s: State, id: Uuid, task: Entry<UserInfo>, tok: Token): State
    requires task.instanceId in s.instances
  {
    var i := task.instanceId;
    var inst := s.instances[i];
    s.WithInstance(i, inst.(state := WaitingOnUserTask(id), tokens := inst.tokens[tok.id := tok]))
     .(userTasks := s.userTasks[id := task])
  }

  // ---- service_task.rs ----

  /** A task can be granted when its topic is asked for and no unexpired lock is on it. */
  predicate Lockable(e: Entry<ServiceInfo>, topics: seq<string>, now: Time) {
    e.data.topic in topics && (e.data.lockExpiration.None? || e.data.lockExpiration.value <= now)
  }

  function Locked(e: Entry<ServiceInfo>, worker: string, until: Time): Entry<ServiceInfo> {
    e.(data := e.data.(workerId := Some(worker), lockExpiration := Some(until)))
  }

  /** Grants lockable tasks in `order`, up to `room` of them. */
  function LockTasks(m: ServiceTasks, order: seq<Uuid>, worker: string, room: nat, topics: seq<string>, now: Time,
      until: Time)
    : (ServiceTasks, seq<Entry<ServiceInfo>>)
    decreases |order|
  {
    if order == [] || room == 0 then (m, [])
    else
      var id := order[0];
      if id in m && Lockable(m[id], topics, now) then
        var e := Locked(m[id], worker, until);
        var (m', rest) := LockTasks(m[id := e], order[1..], worker, room - 1, topics, now, until);
        (m', [e] + rest)
      else LockTasks(m, order[1..], worker, room, topics, now, until)
  }

  function FetchAndLock(s: State, worker: string, max: nat, topics: seq<string>, duration: int, now: Time,
      order: seq<Uuid>)
    : (State, seq<Entry<ServiceInfo>>)
  {
    var (m, granted) := LockTasks(s.serviceTasks, order, worker, max, topics, now, now + duration);
    (s.(serviceTasks := m), granted)
  }

  /** `verify_lock_ownership`. */
  function LockError(e: Entry<ServiceInfo>, worker: string): Outcome {
    match e.data.workerId
    case None => Failed(ServiceTaskNotLocked(e.id))
    case Some(w) => if w != worker then Failed(ServiceTaskLocked(e.id, w)) else Done
  }

  predicate HeldBy(s: State, id: Uuid, worker: string) {
    id in s.serviceTasks && s.serviceTasks[id].data.workerId == Some(worker)
  }

  /** Why a worker that does not hold the task is turned away. */
  function NotHeldError(s: State, id: Uuid): Outcome {
    if id !in s.serviceTasks then Failed(ServiceTaskNotFound(id))
    else match s.serviceTasks[id].data.workerId
      case None => Failed(ServiceTaskNotLocked(id))
      case Some(w) => Failed(ServiceTaskLocked(id, w))
  }

  function TakeServiceTask(s: State, id: Uuid): State {
    s.(serviceTasks := s.serviceTasks - {id}, consumed := s.consumed + [id])
  }

  function CompleteServiceTask(s: State, id: Uuid, worker: string, extra: Variables, env: Env): (State, Outcome) {
    if !HeldBy(s, id, worker) then (s, NotHeldError(s, id))
    else
      var task := s.serviceTasks[id];
      var i, t := task.instanceId, task.tokenId;
      var s1 := TakeServiceTask(s, id);
      if IsSuspended(s1, i) then
        (s1.(serviceTasks := s1.serviceTasks[task.id := task], consumed := s.consumed), Failed(InstanceSuspended(i)))
      else if i !in s1.instances then (s1, Failed(NoSuchInstance(i)))
      else if t !in s1.instances[i].tokens then (s1, Failed(InvalidDefinition))
      else
        var tok := MergedToken(s1, i, t, extra);
        var s3 := Synced(LeaveTask(s1, i, t, task.nodeId), i, tok.variables);
        if s3.instances[i].definitionKey !in s3.definitions
          then (s3, Failed(NoSuchDefinition(s3.instances[i].definitionKey)))
        else
          match env.endScript(tok.variables)
          case None => (s3, Failed(ScriptError))
          case Some(variables) => Finish(s3, i, tok, variables, task.nodeId, env)
  }

  function Released(e: Entry<ServiceInfo>, retries: int, message: Option<string>,
      details: Option<string>): Entry<ServiceInfo> {
    e.(data := e.data.(retries := retries, errorMessage := message, errorDetails := details,
                       workerId := None, lockExpiration := None))
  }

  function FailServiceTask(s: State, id: Uuid, worker: string, retries: Option<int>, message: Option<string>,
      details: Option<string>)
    : (State, Outcome)
  {
    if id !in s.serviceTasks then (s, Failed(ServiceTaskNotFound(id)))
    else
      var e := s.serviceTasks[id];
      if LockError(e, worker).Failed? then (s, LockError(e, worker))
      else
        var left := match retries case Some(r) => r case None => e.data.retries - 1;
        (s.(serviceTasks := s.serviceTasks[id := Released(e, left, message, details)]), Done)
  }

  function RetryIncident(s: State, id: Uuid, retries: Option<int>): (State, Outcome) {
    if id !in s.serviceTasks then (s, Failed(ServiceTaskNotFound(id)))
    else
      var e := s.serviceTasks[id];
      if e.data.retries > 0 then (s, Failed(InvalidDefinition))
      else
        var left := match retries case Some(r) => r case None => 3;
        (s.(serviceTasks := s.serviceTasks[id := Released(e, left, None, None)]), Done)
  }

  /** Resolves an incident by hand. The instance's suspension is not looked at. */
  function ResolveIncident(s: State, id: Uuid, extra: Variables, env: Env): (State, Outcome) {
    if id !in s.serviceTasks then (s, Failed(ServiceTaskNotFound(id)))
    else if s.serviceTasks[id].data.retries > 0 then (s, Failed(InvalidDefinition))
    else
      var task := s.serviceTasks[id];
      var i, t := task.instanceId, task.tokenId;
      var s1 := TakeServiceTask(s, id);
      if i !in s1.instances then (s1, Failed(NoSuchInstance(i)))
      else if t !in s1.instances[i].tokens then (s1, Failed(InvalidDefinition))
      else
        var tok := MergedToken(s1, i, t, extra);
        var s3 := Shown(LeaveTask(s1, i, t, task.nodeId), i, task.nodeId);
        if s3.instances[i].definitionKey !in s3.definitions
          then (s3, Failed(NoSuchDefinition(s3.instances[i].definitionKey)))
        else
          match env.endScript(tok.variables)
          case None => (s3, Failed(ScriptError))
          case Some(variables) => Finish(s3, i, tok, variables, task.nodeId, env)
  }

  function ExtendLock(s: State, id: Uuid, worker: string, duration: int, now: Time): (State, Outcome) {
    if id !in s.serviceTasks then (s, Failed(ServiceTaskNotFound(id)))
    else
      var e := s.serviceTasks[id];
      if LockError(e, worker).Failed? then (s, LockError(e, worker))
      else (s.(serviceTasks := s.serviceTasks[id := e.(data := e.data.(lockExpiration := Some(now + duration)))]), Done)
  }

  /** The first boundary error event of `node`, in `order`, that catches `code`. */
  function FindBoundaryError(d: ProcessDefinition, order: seq<string>, node: string, code: string): Option<string> {
    if order == [] then None
    else if order[0] in d.nodes && d.nodes[order[0]].BoundaryErrorEvent? && d.nodes[order[0]].attachedTo == node
      && (d.nodes[order[0]].errorCode.None? || d.nodes[order[0]].errorCode == Some(code)) then Some(order[0])
    else FindBoundaryError(d, order[1..], node, code)
  }

  /** Reports a BPMN error. The instance's suspension is not looked at. */
  function HandleBpmnError(s: State, id: Uuid, worker: string, code: string, env: Env): (State, Outcome) {
    if !HeldBy(s, id, worker) then (s, NotHeldError(s, id))
    else
      var task := s.serviceTasks[id];
      var i, t := task.instanceId, task.tokenId;
      var s1 := TakeServiceTask(s, id);
      if i !in s1.instances then (s1, Failed(NoSuchInstance(i)))
      else
        var s2 := CancelBoundary(s1, i, task.nodeId);
        var key := s2.instances[i].definitionKey;
        if key !in s2.definitions then (s2, Done)
        else
          var d := s2.definitions[key];
          match FindBoundaryError(d, d.order, task.nodeId, code)
          case None => (s2, Done)
          case Some(boundary) =>
            var s3 := s2.WithInstance(i, s2.instances[i].(state := Running));
            if t !in s3.instances[i].tokens then (s3, Failed(InvalidDefinition))
            else MoveOn(WithoutToken(s3, i, t), i, s3.instances[i].tokens[t], d, boundary, env)
  }

  // ---- process_start.rs ----

  function StartEventOf(d: ProcessDefinition, order: seq<string>): (r: Option<string>)
    ensures r.Some? ==> r.value in d.nodes && d.nodes[r.value].IsStart()
  {
    if order == [] then None
    else if order[0] in d.nodes && d.nodes[order[0]].IsStart() then Some(order[0])
    else StartEventOf(d, order[1..])
  }

  /** Registers the scope event listeners of a starting instance, under the nil token. */
  function RegisterListeners(s: State, listeners: seq<ScopeEventListener>, i: Uuid, env: Env): (r: State)
    ensures r.instances == s.instances && r.definitions == s.definitions
    ensures r.userTasks == s.userTasks && r.serviceTasks == s.serviceTasks
    decreases |listeners|
  {
    if listeners == [] then s
    else
      var s1 := match listeners[0]
        case TimerListener(timer, target) => AddTimer(s, i, NIL, target, timer, env)
        case MessageListener(name, target) => AddCatch(s, i, NIL, target, name)
        case ErrorListener(_) => s;
      RegisterListeners(s1, listeners[1..], i, env)
  }

  function InitialInstance(key: Uuid, businessKey: string, start: string, variables: Variables): Instance {
    Instance(key, businessKey, Running, start, variables, map[], [], map[], map[])
  }

  function BusinessKeyOf(variables: Variables, generated: Uuid): string {
    if "business_key" in variables && variables["business_key"].Str? then variables["business_key"].s
    else Text.PrintNat(generated)
  }

  /** The state a starting instance's batch runs in. */
  function Started(s: State, key: Uuid, start: string, variables: Variables, env: Env): State
    requires key in s.definitions
  {
    var i := s.nextId;
    var inst := InitialInstance(key, BusinessKeyOf(variables, i), start, variables - {"business_key"});
    RegisterListeners(s.WithInstance(i, inst).(nextId := i + 2), s.definitions[key].eventListeners, i, env)
  }

  /** Starts an instance; its id is the next fresh one, and is returned even when its first batch fails. */
  function StartInstance(s: State, key: Uuid, variables: Variables, env: Env): (State, Result<Uuid>) {
    if key !in s.definitions then (s, Err(NoSuchDefinition(key)))
    else
      var d := s.definitions[key];
      match StartEventOf(d, d.order)
      case None => (s, Err(InvalidDefinition))
      case Some(start) =>
        if d.nodes[start].TimerStartEvent? then (s, Err(InvalidDefinition))
        else
          var i, tok := s.nextId, Token(s.nextId + 1, start, variables - {"business_key"}, false);
          var (s', r) := Run(Started(s, key, start, variables, env), i, tok, env);
          (s', match r case Done => Ok(i) case Failed(e) => Err(e))
  }

  /** A registered definition of the BPMN id with the highest version, searched in `order`. */
  function LatestOf(defs: Definitions, order: seq<Uuid>, bpmnId: string): Option<Uuid> {
    if order == [] then None
    else
      var rest := LatestOf(defs, order[1..], bpmnId);
      var k := order[0];
      if k in defs && defs[k].id == bpmnId
        && (rest.None? || rest.value !in defs || defs[rest.value].version < defs[k].version) then Some(k)
      else rest
  }

  // ---- Resuming a token whose wait fired (timer_processor.rs, message_processor.rs) ----

  /** A non-interrupting event leaves the token waiting and sends on a clone with a new id. */
  function CloneToken(s: State, i: Uuid, t: Uuid): (State, Token)
    requires i in s.instances && t in s.instances[i].tokens
  {
    var inst := s.instances[i];
    var clone := inst.tokens[t].(id := s.nextId);
    var tokens := inst.tokens[clone.id := clone];
    (s.WithInstance(i, inst.(
        tokens := tokens,
        activeTokens := inst.activeTokens + [ActiveToken(clone, Some(clone.currentNode), |inst.activeTokens|, false)],
        state := if inst.state.ParallelExecution? then inst.state else ParallelExecution(|tokens|)))
      .(nextId := s.nextId + 1),
     clone)
  }

  /** An interrupting event takes the token and removes the tasks it was waiting in. */
  function InterruptToken(s: State, i: Uuid, t: Uuid): (State, Token)
    requires i in s.instances && t in s.instances[i].tokens
  {
    var tok := s.instances[i].tokens[t];
    (WithoutToken(s, i, t).(
        userTasks := DropTaskAt(s.userTasks, i, t, tok.currentNode),
        serviceTasks := DropTaskAt(s.serviceTasks, i, t, tok.currentNode)),
     tok)
  }

  // ---- timer_processor.rs ----

  /** The timers that are due and whose instance is not suspended, in `order`. */
  function Expired(s: State, now: Time, order: seq<Uuid>): seq<Uuid> {
    if order == [] then []
    else
      var id := order[0];
      (if id in s.timers && s.timers[id].data.expiresAt <= now && !IsSuspended(s, s.timers[id].instanceId) then [id]
        else [])
        + Expired(s, now, order[1..])
  }

  /** A fired timer is scheduled again. */
  predicate Repeats(e: Entry<TimerInfo>, env: Env) {
    Recurring(e) && e.data.remaining != Some(0) && e.data.timerDef.value.NextExpiry(env.now, env.cron).Some?
  }

  /** The timer that follows a fired recurring one, under the same token. */
  function Reschedule(s: State, fired: Entry<TimerInfo>, env: Env): State {
    if !Recurring(fired) || fired.data.remaining == Some(0) then s
    else
      match fired.data.timerDef.value.NextExpiry(env.now, env.cron)
      case None => s
      case Some(expiry) =>
        var left := match fired.data.remaining case Some(r) => Some(if r > 0 then r - 1 else 0) case None => None;
        var e := fired.(id := s.nextId, data := fired.data.(expiresAt := expiry, remaining := left));
        s.(timers := s.timers[s.nextId := e], nextId := s.nextId + 1)
  }

  /** An event sub-process trigger starts a child instance of the definition it names. */
  function FireListener(s: State, i: Uuid, target: string, variables: Variables, defOrder: seq<Uuid>, env: Env): (State,
      Outcome) {
    match LatestOf(s.definitions, defOrder, target)
    case None => (s, Failed(InvalidDefinition))
    case Some(key) =>
      if i !in s.instances then (s, Failed(NoSuchInstance(i)))
      else
        var (s', r) := StartInstance(s, key, s.instances[i].variables + variables, env);
        (s', match r case Ok(_) => Done case Err(e) => Failed(e))
  }

  function TakeTimer(s: State, id: Uuid): State
    requires id in s.timers
  {
    s.(timers := s.timers - {id}, fired := s.fired + [TimerFired(id, s.timers[id].data.origin)])
  }

  /** The timer is taken and its token's waits are cleared; the instance runs. */
  function TimerTaken(s: State, id: Uuid): State
    requires id in s.timers && s.timers[id].instanceId in s.instances
  {
    var i, t := s.timers[id].instanceId, s.timers[id].tokenId;
    var s1 := ClearWaits(TakeTimer(s, id), i, t);
    s1.WithInstance(i, s1.instances[i].(state := Running))
  }

  /** The token a fired timer resumes, and the state it resumes in. */
  function TimerResumes(s: State, id: Uuid): (State, Token)
    requires id in s.timers && s.timers[id].instanceId in s.instances
    requires s.timers[id].tokenId in s.instances[s.timers[id].instanceId].tokens
    requires s.instances[s.timers[id].instanceId].definitionKey in s.definitions
  {
    var i, t := s.timers[id].instanceId, s.timers[id].tokenId;
    if NonInterruptingTimer(s.definitions[s.instances[i].definitionKey], s.timers[id].nodeId)
    then CloneToken(TimerTaken(s, id), i, t) else InterruptToken(TimerTaken(s, id), i, t)
  }

  /** Takes a timer and resumes what waited for it. */
  function ResumeTimer(s: State, id: Uuid, defOrder: seq<Uuid>, env: Env): (State, Outcome)
    requires id in s.timers
  {
    var timer := s.timers[id];
    var i, t := timer.instanceId, timer.tokenId;
    if i !in s.instances then (ClearWaits(TakeTimer(s, id), i, t), Failed(NoSuchInstance(i)))
    else if t == NIL then FireListener(TimerTaken(s, id), i, timer.nodeId, map[], defOrder, env)
    else
      var key := s.instances[i].definitionKey;
      if key !in s.definitions then (TimerTaken(s, id), Failed(NoSuchDefinition(key)))
      else if t !in s.instances[i].tokens then (TimerTaken(s, id), Failed(InvalidDefinition))
      else
        var (s', tok) := TimerResumes(s, id);
        MoveOn(s', i, tok, s.definitions[key], timer.nodeId, env)
  }

  function FireTimer(s: State, id: Uuid, defOrder: seq<Uuid>, env: Env): (State, Outcome) {
    if id !in s.timers then (s, Failed(InvalidDefinition))
    else
      var (s', r) := ResumeTimer(s, id, defOrder, env);
      if r.Done? && s.timers[id].tokenId != NIL then (Reschedule(s', s.timers[id], env), Done) else (s', r)
  }

  /** Fires the collected timers one after the other; the first error ends the call. `envs(k)` is what
      the `k`-th firing finds. */
  function FireTimers(s: State, ids: seq<Uuid>, defOrder: seq<Uuid>, envs: nat -> Env, k: nat): (State, Outcome)
    decreases |ids|
  {
    if ids == [] then (s, Done)
    else
      var (s', r) := FireTimer(s, ids[0], defOrder, envs(k));
      if r.Failed? then (s', r) else FireTimers(s', ids[1..], defOrder, envs, k + 1)
  }

  function ProcessTimers(s: State, now: Time, order: seq<Uuid>, defOrder: seq<Uuid>, envs: nat -> Env): (State,
      Result<nat>) {
    var ids := Expired(s, now, order);
    var (s', r) := FireTimers(s, ids, defOrder, envs, 0);
    (s', match r case Done => Ok(|ids|) case Failed(e) => Err(e))
  }

  // ---- message_processor.rs ----

  predicate Matches(s: State, e: Entry<CatchInfo>, name: string, businessKey: Option<string>) {
    && e.data.messageName == name && e.instanceId in s.instances
    && (businessKey.None? || s.instances[e.instanceId].businessKey == businessKey.value)
  }

  function MatchingCatches(s: State, name: string, businessKey: Option<string>, order: seq<Uuid>): seq<Uuid> {
    if order == [] then []
    else
      var id := order[0];
      (if id in s.catches && Matches(s, s.catches[id], name, businessKey) then [id] else [])
        + MatchingCatches(s, name, businessKey, order[1..])
  }

  function TakeCatch(s: State, id: Uuid): State
    requires id in s.catches
  {
    s.(catches := s.catches - {id}, fired := s.fired + [CatchFired(id)])
  }

  /** A catch's token, free to move on. */
  function CatchResumes(s1: State, i: Uuid, t: Uuid, d: ProcessDefinition, node: string, variables: Variables): (State,
      Token)
    requires i in s1.instances && t in s1.instances[i].tokens
  {
    var (s2, tok) := if NonInterruptingMessage(d, node) then CloneToken(s1, i, t) else InterruptToken(s1, i, t);
    (s2.WithInstance(i, s2.instances[i].Resumed()), tok.(variables := tok.variables + variables))
  }

  /** Resumes the token of a matched catch. The instance's suspension is not looked at. */
  function FireCatch(s: State, id: Uuid, variables: Variables, defOrder: seq<Uuid>, env: Env): (State, Outcome) {
    if id !in s.catches then (s, Failed(InvalidDefinition))
    else
      var c := s.catches[id];
      var i, t := c.instanceId, c.tokenId;
      var s1 := ClearWaits(TakeCatch(s, id), i, t);
      if t == NIL then FireListener(s1, i, c.nodeId, variables, defOrder, env)
      else if i !in s1.instances then (s1, Failed(NoSuchInstance(i)))
      else
        var key := s1.instances[i].definitionKey;
        if key !in s1.definitions then (s1, Failed(NoSuchDefinition(key)))
        else if t !in s1.instances[i].tokens then (s1, Failed(InvalidDefinition))
        else
          var d := s1.definitions[key];
          var (s2, tok) := CatchResumes(s1, i, t, d, c.nodeId, variables);
          MoveOn(s2, i, tok, d, c.nodeId, env)
  }

  function FireCatches(s: State, ids: seq<Uuid>, variables: Variables, defOrder: seq<Uuid>, envs: nat -> Env,
      k: nat): (State, Outcome)
    decreases |ids|
  {
    if ids == [] then (s, Done)
    else
      var (s', r) := FireCatch(s, ids[0], variables, defOrder, envs(k));
      if r.Failed? then (s', r) else FireCatches(s', ids[1..], variables, defOrder, envs, k + 1)
  }

  predicate StartsOn(d: ProcessDefinition, name: string) {
    var start := StartEventOf(d, d.order);
    start.Some? && d.nodes[start.value].MessageStartEvent? && d.nodes[start.value].messageName == name
  }

  function StartedBy(defs: Definitions, name: string, order: seq<Uuid>): seq<Uuid> {
    if order == [] then []
    else (if order[0] in defs && StartsOn(defs[order[0]], name) then [order[0]] else [])
         + StartedBy(defs, name, order[1..])
  }

  /** Starts an instance of each definition; the first error ends the call. */
  function StartEach(s: State, keys: seq<Uuid>, variables: Variables, businessKey: Option<string>, envs: nat -> Env,
      k: nat)
    : (State, Result<seq<Uuid>>)
    decreases |keys|
  {
    if keys == [] then (s, Ok([]))
    else
      var (s1, r) := StartInstance(s, keys[0], variables, envs(k));
      match r
      case Err(e) => (s1, Err(e))
      case Ok(i) =>
        var (s', rest) := StartEach(WithBusinessKey(s1, i, businessKey), keys[1..], variables, businessKey, envs,
          k + 1);
        (s', match rest case Ok(started) => Ok([i] + started) case Err(e) => Err(e))
  }

  /** The instance takes over the message's business key, if there is one. */
  function WithBusinessKey(s: State, i: Uuid, businessKey: Option<string>): State {
    if businessKey.Some? && i in s.instances
    then s.WithInstance(i, s.instances[i].(businessKey := businessKey.value)) else s
  }

  function InstancesOf(m: Catches, ids: seq<Uuid>): seq<Uuid> {
    if ids == [] then []
    else (if ids[0] in m then [m[ids[0]].instanceId] else []) + InstancesOf(m, ids[1..])
  }

  /** Resumes every matching catch, then starts every definition the message starts; answers with the
      instances it reached. */
  function CorrelateMessage(s: State, name: string, businessKey: Option<string>, variables: Variables,
                            order: seq<Uuid>, defOrder: seq<Uuid>, envs: nat -> Env): (State, Result<seq<Uuid>>) {
    var ids := MatchingCatches(s, name, businessKey, order);
    var (s1, r) := FireCatches(s, ids, variables, defOrder, envs, 0);
    match r
    case Failed(e) => (s1, Err(e))
    case Done =>
      var (s', started) := StartEach(s1, StartedBy(s1.definitions, name, defOrder), variables, businessKey, envs,
        |ids|);
      (s', match started case Ok(begun) => Ok(InstancesOf(s.catches, ids) + begun) case Err(e) => Err(e))
  }

  // ---- instance_ops.rs ----

  /** Applies an update: a null value removes the key, any other value sets it. */
  function Merged(variables: Variables, update: Variables): Variables {
    map k | k in variables.Keys + update.Keys && (k in update ==> !update[k].Null?)
      :: if k in update then update[k] else variables[k]
  }

  /** What an update does to a token: it gets every non-null variable of the instance, and keeps the
      variables the instance does not have. */
  function RefreshedToken(tok: Token, variables: Variables): Token {
    tok.(variables := Merged(tok.variables, variables))
  }

  function RefreshedTokens(tokens: map<Uuid, Token>, variables: Variables): map<Uuid, Token> {
    map t | t in tokens :: RefreshedToken(tokens[t], variables)
  }

  /** The instance after an update: its variables, handed on to its tokens. */
  function UpdatedInstance(inst: Instance, update: Variables): Instance {
    var vars := Merged(inst.variables, update);
    inst.(variables := vars, tokens := RefreshedTokens(inst.tokens, vars))
  }

  function UpdateVariables(s: State, i: Uuid, update: Variables): (State, Outcome) {
    if i !in s.instances then (s, Failed(NoSuchInstance(i)))
    else (s.WithInstance(i, UpdatedInstance(s.instances[i], update)), Done)
  }

  function Suspend(s: State, i: Uuid): (State, Outcome) {
    if i !in s.instances then (s, Failed(NoSuchInstance(i)))
    else
      var inst := s.instances[i];
      if inst.state.Terminal() then (s, Failed(AlreadyCompleted))
      else if inst.state.Suspended? then (s, Failed(InstanceSuspended(i)))
      else (s.WithInstance(i, inst.(state := Suspended(inst.state))), Done)
  }

  function Resume(s: State, i: Uuid): (State, Outcome) {
    if i !in s.instances then (s, Failed(NoSuchInstance(i)))
    else if !s.instances[i].state.Suspended? then (s, Failed(InvalidDefinition))
    else (s.WithInstance(i, s.instances[i].(state := s.instances[i].state.previous)), Done)
  }

  function DropPending(s: State, i: Uuid): State {
    s.(userTasks := DropInstance(s.userTasks, i), serviceTasks := DropInstance(s.serviceTasks, i),
       timers := DropInstance(s.timers, i), catches := DropInstance(s.catches, i))
  }

  /** The instance with all tokens, branches and joins replaced by one fresh token at the target. */
  function Relocated(s: State, i: Uuid, tok: Token): State
    requires i in s.instances
  {
    s.WithInstance(i, s.instances[i].(
        tokens := map[tok.id := tok], activeTokens := [], joinBarriers := map[], multiInstance := map[],
        state := Running, currentNode := tok.currentNode, variables := tok.variables)).(nextId := s.nextId + 1)
  }

  /** Why a move is refused; `None` when it goes through. */
  function MoveError(s: State, i: Uuid, target: string): Option<EngineError> {
    if i !in s.instances then Some(NoSuchInstance(i))
    else
      var inst := s.instances[i];
      if inst.state.Terminal() then Some(AlreadyCompleted)
      else if inst.state.Suspended? then Some(InstanceSuspended(i))
      else if inst.definitionKey !in s.definitions then Some(NoSuchDefinition(inst.definitionKey))
      else if target !in s.definitions[inst.definitionKey].nodes then Some(NoSuchNode(target))
      else None
  }

  /** The fresh token of a move. */
  function MovedToken(s: State, i: Uuid, target: string, update: Variables): Token
    requires i in s.instances
  {
    Token(s.nextId, target, Merged(s.instances[i].variables, update), false)
  }

  function MoveToken(s: State, i: Uuid, target: string, update: Variables, cancel: bool, env: Env): (State, Outcome) {
    match MoveError(s, i, target)
    case Some(e) => (s, Failed(e))
    case None =>
      var tok := MovedToken(s, i, target, update);
      Run(Relocated(if cancel then DropPending(s, i) else s, i, tok), i, tok, env)
  }

  /** Where the mapping takes a node. */
  function Remap(mapping: map<string, string>, node: string): string {
    if node in mapping then mapping[node] else node
  }

  function RemapToken(mapping: map<string, string>, tok: Token): Token {
    tok.(currentNode := Remap(mapping, tok.currentNode))
  }

  function RemapActive(mapping: map<string, string>, active: seq<ActiveToken>): seq<ActiveToken> {
    if active == [] then []
    else [active[0].(token := RemapToken(mapping, active[0].token))] + RemapActive(mapping, active[1..])
  }

  /** `drain().map(..).collect()`: the table under mapped keys, entered in `order`, the order in which
      the hash map yields its keys. When two keys map to one, the later one wins. */
  function RemapKeys<V>(mapping: map<string, string>, table: map<string, V>, order: seq<string>): map<string, V>
    decreases |order|
  {
    if order == [] then map[]
    else
      var rest := RemapKeys(mapping, table, order[..|order| - 1]);
      var k := order[|order| - 1];
      if k in table then rest[Remap(mapping, k) := table[k]] else rest
  }

  function RemapEntries<K>(m: map<Uuid, Entry<K>>, i: Uuid, mapping: map<string, string>): map<Uuid, Entry<K>> {
    map id | id in m :: if m[id].instanceId == i then m[id].(nodeId := Remap(mapping, m[id].nodeId)) else m[id]
  }

  /** Service tasks also get the new definition key. */
  function RemapServices(m: ServiceTasks, i: Uuid, mapping: map<string, string>, key: Uuid): ServiceTasks {
    map id | id in m ::
      if m[id].instanceId == i
      then m[id].(nodeId := Remap(mapping, m[id].nodeId), data := m[id].data.(definitionKey := key)) else m[id]
  }

  /** The orders in which the hash maps of the migrated instance yield their keys. */
  datatype MigrationOrder = MigrationOrder(tokens: seq<Uuid>, barriers: seq<string>, multiInstance: seq<string>)

  predicate Orphaned(node: string, d: ProcessDefinition, mapping: map<string, string>) {
    Remap(mapping, node) !in d.nodes
  }

  function FirstOrphanToken(inst: Instance, order: seq<Uuid>, d: ProcessDefinition,
      mapping: map<string, string>): Option<string> {
    if order == [] then None
    else if order[0] in inst.tokens && Orphaned(inst.tokens[order[0]].currentNode, d, mapping)
      then Some(Remap(mapping, inst.tokens[order[0]].currentNode))
    else FirstOrphanToken(inst, order[1..], d, mapping)
  }

  function FirstOrphanActive(active: seq<ActiveToken>, d: ProcessDefinition,
      mapping: map<string, string>): Option<string> {
    if active == [] then None
    else if Orphaned(active[0].token.currentNode, d, mapping) then Some(Remap(mapping, active[0].token.currentNode))
    else FirstOrphanActive(active[1..], d, mapping)
  }

  /** The first mapped node, of the nodes the instance stands on, that the target does not have. */
  function FirstOrphan(inst: Instance, order: seq<Uuid>, d: ProcessDefinition,
      mapping: map<string, string>): Option<string> {
    if Orphaned(inst.currentNode, d, mapping) then Some(Remap(mapping, inst.currentNode))
    else
      var t := FirstOrphanToken(inst, order, d, mapping);
      if t.Some? then t else FirstOrphanActive(inst.activeTokens, d, mapping)
  }

  function MigratedInstance(inst: Instance, key: Uuid, mapping: map<string, string>, order: MigrationOrder): Instance {
    inst.(definitionKey := key,
          currentNode := Remap(mapping, inst.currentNode),
          tokens := map t | t in inst.tokens :: RemapToken(mapping, inst.tokens[t]),
          activeTokens := RemapActive(mapping, inst.activeTokens),
          joinBarriers := RemapKeys(mapping, inst.joinBarriers, order.barriers),
          multiInstance := RemapKeys(mapping, inst.multiInstance, order.multiInstance))
  }

  /** The state a successful migration leads to. */
  function Migrated(s: State, i: Uuid, key: Uuid, mapping: map<string, string>, order: MigrationOrder): State
    requires i in s.instances
  {
    s.WithInstance(i, MigratedInstance(s.instances[i], key, mapping, order)).(
      userTasks := RemapEntries(s.userTasks, i, mapping),
      serviceTasks := RemapServices(s.serviceTasks, i, mapping, key),
      timers := RemapEntries(s.timers, i, mapping),
      catches := RemapEntries(s.catches, i, mapping))
  }

  /** Why a migration is refused; `None` when it goes through. */
  function MigrationError(s: State, i: Uuid, key: Uuid, mapping: map<string, string>,
      order: MigrationOrder): Option<EngineError> {
    if key !in s.definitions then Some(NoSuchDefinition(key))
    else if i !in s.instances then Some(NoSuchInstance(i))
    else if s.instances[i].state.Terminal() then Some(AlreadyCompleted)
    else if s.instances[i].state.Suspended? then Some(InstanceSuspended(i))
    else match FirstOrphan(s.instances[i], order.tokens, s.definitions[key], mapping)
      case Some(node) => Some(OrphanedToken(node))
      case None => None
  }

  function Migrate(s: State, i: Uuid, key: Uuid, mapping: map<string, string>, order: MigrationOrder): (State,
      Outcome) {
    match MigrationError(s, i, key, mapping, order)
    case Some(e) => (s, Failed(e))
    case None => (Migrated(s, i, key, mapping, order), Done)
  }

  /** Deletes an instance. When the store refuses the deletion the call stops half-way. */
  function DeleteInstance(s: State, i: Uuid, storeOk: bool): (State, Outcome) {
    if i !in s.instances then (s, Failed(NoSuchInstance(i)))
    else
      var s1 := s.(instances := s.instances - {i});
      if !storeOk then (s1, Failed(PersistenceError)) else (DropPending(s1, i), Done)
  }
}
