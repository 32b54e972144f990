/** Runs from an empty engine in which the code breaks a promise: each takes a small process and a few
    calls to the state that the lemmas on the exact conditions speak about. */
module Witnesses {
  import opened Values
  import opened Definition
  import opened EngineState
  import opened Executor
  import opened Operations
  import opened Endings
  import opened Parking
  import opened Arrivals
  import opened Runs
  import opened References
  import opened Guarantees
  import opened Chains
  import opened Waits
  import opened Schedules
  import opened Lifecycle
  import IntegrityProofs
  import IntegrityLimits
  import Suspension
  import Rollback

  const DEF: Uuid := 1

  /** The first instance of an engine, and its token. */
  const INSTANCE: Uuid := 1
  const TOKEN: Uuid := 2

  /** From a start event to `work` and on to the end; `first` and `second` lead to the end as well. */
  function Process(work: BpmnElement, first: BpmnElement, second: BpmnElement): ProcessDefinition {
    var toEnd := [SequenceFlow("end", None)];
    ProcessDefinition(DEF, "process", 1,
      map["start" := StartEvent, "work" := work, "end" := EndEvent, "first" := first, "second" := second],
      ["start", "work", "end", "first", "second"],
      map["start" := [SequenceFlow("work", None)], "work" := toEnd, "first" := toEnd, "second" := toEnd], [], [])
  }

  /** What the batch of a call at time `now` finds. */
  function Steps(now: Time, steps: seq<Step>): Env {
    Env(now, (_, _) => None, v => Some(v), steps)
  }

  /** The start of an instance, whose token goes to `work`. */
  function Begin(variables: Variables, action: Action): Call {
    Start(DEF, variables, Steps(0,
      [Step(variables, variables, "work", Action.Continue("work")), Step(variables, variables, "work", action)]))
  }

  function AtWork(variables: Variables): Token {
    Token(TOKEN, "work", variables, false)
  }

  /** The token of the first instance rests at `work`. */
  ghost predicate Begun(s: State, d: ProcessDefinition, variables: Variables) {
    && Sane(s) && s.definitions == map[DEF := d] && INSTANCE in s.instances && "work" in d.nodes
    && s.instances[INSTANCE].definitionKey == DEF && s.instances[INSTANCE].tokens == map[TOKEN := AtWork(variables)]
    && s.instances[INSTANCE].variables == variables
    && s.instances[INSTANCE].activeTokens == []
    && !s.instances[INSTANCE].state.Suspended? && !s.instances[INSTANCE].state.Terminal()
    && HasWork(s, d, INSTANCE, AtWork(variables), Steps(0, []))
  }

  lemma RunOne(s: State, c: Call)
    ensures RunCalls(s, [c]) == Apply(s, c)
  {
    assert [c][1..] == [];
    hide Apply;
    assert RunCalls(Apply(s, c), []) == Apply(s, c);
  }

  lemma RunNext(s: State, calls: seq<Call>, c: Call)
    ensures RunCalls(s, calls + [c]) == Apply(RunCalls(s, calls), c)
  {
    RunInTwo(s, calls + [c], |calls|);
    assert (calls + [c])[..|calls|] == calls && (calls + [c])[|calls|..] == [c];
    RunOne(RunCalls(s, calls), c);
    hide Apply;
  }

  /** What a token waits in depends on the clock and the cron library alone. */
  lemma SameClock(s: State, d: ProcessDefinition, i: Uuid, tok: Token, a: Env, b: Env)
    requires tok.currentNode in d.nodes && HasWork(s, d, i, tok, a) && a.now == b.now && a.cron == b.cron
    ensures HasWork(s, d, i, tok, b)
  {
    hide HasUserTask, HasServiceTask, HasCatch;
    forall node, timer: TimerDefinition | HasTimer(s, i, node, tok.id, timer, a)
      ensures HasTimer(s, i, node, tok.id, timer, b)
    {
      var id :| id in s.timers && s.timers[id].instanceId == i && s.timers[id].nodeId == node
        && s.timers[id].tokenId == tok.id && s.timers[id].data.timerDef == Some(timer)
        && s.timers[id].data.remaining.None? && DueFrom(s.timers[id].data.expiresAt, timer, a);
    }
    hide HasTimer;
  }

  /** The first instance before its first batch. */
  ghost predicate Ready(s1: State, d: ProcessDefinition, variables: Variables) {
    && Sane(s1) && s1.definitions == map[DEF := d] && INSTANCE in s1.instances
    && s1.instances[INSTANCE].definitionKey == DEF && s1.instances[INSTANCE].state == Running
    && s1.instances[INSTANCE].tokens == map[] && s1.instances[INSTANCE].variables == variables
    && s1.instances[INSTANCE].activeTokens == []
  }

  lemma LaunchedReady(s: State, s1: State, d: ProcessDefinition, variables: Variables, env: Env)
    requires s.definitions == map[DEF := d] && s.nextId == 1 && Sane(s) && "business_key" !in variables
    requires Launched(s, s1, DEF, "start", variables, env)
    ensures Ready(s1, d, variables)
  {
    hide Sane, Listening, OnlyFor, KeyedBy;
    assert variables - {"business_key"} == variables;
  }

  /** The batch of the first instance. */
  lemma BatchBegins(s1: State, d: ProcessDefinition, variables: Variables, action: Action, env: Env)
    requires d.nodes.Keys == {"start", "work", "end", "first", "second"} && d.nodes["start"].StartEvent?
      && d.nodes["work"].EndEvent? == false
    requires RestsAt(d, "work") && action == RestAction(d.nodes["work"]).value
    requires env == Steps(0, [Step(variables, variables, "work", Action.Continue("work")),
                              Step(variables, variables, "work", action)])
    requires Ready(s1, d, variables)
    ensures var (s', r) := Run(s1, INSTANCE, Token(TOKEN, "start", variables, false), env);
      r == Done && Begun(s', d, variables)
  {
    var tok, go, rest := Token(TOKEN, "start", variables, false), env.steps[0], env.steps[1];
    assert CanStep(s1, INSTANCE, tok, go);
    var p := Prelude(s1, INSTANCE, go);
    assert Sane(p);
    assert env.steps == [go] + [rest];
    hide RunBatch, HasWork, Sane;
    StepContinues(s1, INSTANCE, tok, go, [rest], "work", env, 0);
    StepRests(p, INSTANCE, AtWork(variables), rest, env, 1);
    RestedBegun(p, Run(s1, INSTANCE, tok, env).0, d, variables, env);
  }

  lemma RestedBegun(p: State, s': State, d: ProcessDefinition, variables: Variables, env: Env)
    requires Ready(p, d, variables) && "work" in d.nodes && !d.nodes["work"].EndEvent?
    requires Rested(p, s', INSTANCE, AtWork(variables), variables, env) && env == Steps(0, env.steps)
    ensures Begun(s', d, variables)
  {
    hide HasWork, Sane, OnlyWorkFor, OnlyWaits, BelongsTo;
    SameClock(s', d, INSTANCE, AtWork(variables), env, Steps(0, []));
    assert map[] + map[TOKEN := AtWork(variables)] == map[TOKEN := AtWork(variables)];
  }

  lemma StartRuns(s: State, variables: Variables, env: Env)
    requires Sane(s) && s.nextId == 1 && DEF in s.definitions && "business_key" !in variables
    requires StartEventOf(s.definitions[DEF], s.definitions[DEF].order) == Some("start")
      && s.definitions[DEF].nodes["start"].StartEvent?
    ensures exists s1 ::
      && Launched(s, s1, DEF, "start", variables, env)
      && Apply(s, Start(DEF, variables, env)) == Run(s1, INSTANCE, Token(TOKEN, "start", variables, false), env).0
  {
    assert variables - {"business_key"} == variables;
    ApplyStart(s, variables, env);
    hide Sane, Launched, Run, StartInstance, StartEventOf, Apply;
    StartHandsOver(s, DEF, "start", variables, env);
  }

  lemma ApplyStart(s: State, variables: Variables, env: Env)
    ensures Apply(s, Start(DEF, variables, env)) == StartInstance(s, DEF, variables, env).0
  {
    hide StartInstance;
  }

  /** A process whose instances start at `start`, which leads to a node `work` where tokens rest. */
  ghost predicate StartsAtWork(d: ProcessDefinition) {
    && d.nodes.Keys == {"start", "work", "end", "first", "second"} && d.nodes["start"].StartEvent?
    && StartEventOf(d, d.order) == Some("start") && RestsAt(d, "work") && !d.nodes["work"].EndEvent?
  }

  lemma ProcessStarts(work: BpmnElement, first: BpmnElement, second: BpmnElement)
    requires RestAction(work).Some? && !work.EndEvent? && !work.EventBasedGateway?
    ensures StartsAtWork(Process(work, first, second))
  {}

  lemma FreshStarts(d: ProcessDefinition)
    ensures var s := Fresh(map[DEF := d]); Sane(s) && s.nextId == 1 && s.definitions == map[DEF := d]
  {}

  lemma BeginsAtWork(d: ProcessDefinition, variables: Variables)
    requires StartsAtWork(d) && "business_key" !in variables
    ensures Begun(RunCalls(Fresh(map[DEF := d]), [Begin(variables, RestAction(d.nodes["work"]).value)]), d, variables)
  {
    var s, c := Fresh(map[DEF := d]), Begin(variables, RestAction(d.nodes["work"]).value);
    FreshStarts(d);
    hide Fresh, Sane, Begun, Launched, Ready, Run, Apply, StartEventOf, RunCalls, RestAction;
    StartRuns(s, variables, c.env);
    var s1 :| Launched(s, s1, DEF, "start", variables, c.env)
      && Apply(s, c) == Run(s1, INSTANCE, Token(TOKEN, "start", variables, false), c.env).0;
    LaunchedReady(s, s1, d, variables, c.env);
    BatchBegins(s1, d, variables, RestAction(d.nodes["work"]).value, c.env);
    RunOne(s, c);
  }

  lemma Beginning(work: BpmnElement, first: BpmnElement, second: BpmnElement, variables: Variables)
    requires RestAction(work).Some? && !work.EndEvent? && !work.EventBasedGateway? && "business_key" !in variables
    ensures var d := Process(work, first, second);
      Begun(RunCalls(Fresh(map[DEF := d]), [Begin(variables, RestAction(work).value)]), d, variables)
  {
    var d := Process(work, first, second);
    ProcessStarts(work, first, second);
    hide StartsAtWork, Begun, RunCalls, Begin, Fresh;
    assert d.nodes["work"] == work;
    BeginsAtWork(d, variables);
  }

  /** The state a run of one start leads to. */
  function Initial(d: ProcessDefinition, variables: Variables, action: Action): State {
    RunCalls(Fresh(map[DEF := d]), [Begin(variables, action)])
  }

  lemma AfterBegin(d: ProcessDefinition, variables: Variables, action: Action, c: Call)
    ensures RunCalls(Fresh(map[DEF := d]), [Begin(variables, action), c]) == Apply(Initial(d, variables, action), c)
  {
    RunNext(Fresh(map[DEF := d]), [Begin(variables, action)], c);
    hide RunCalls, Apply, Fresh, Begin;
    assert [Begin(variables, action)] + [c] == [Begin(variables, action), c];
  }

  lemma BeginningKeeps(d: ProcessDefinition, variables: Variables, action: Action)
    requires PlainCalls(d)
    ensures Integrity(Initial(d, variables, action))
  {
    var s, c := Fresh(map[DEF := d]), Begin(variables, action);
    FreshIsSound(map[DEF := d]);
    assert DefinitionsOk(map[DEF := d]);
    hide Integrity, Apply, RunCalls;
    CallKeepsIntegrity(s, c);
    RunOne(s, c);
  }

  const USER := UserTask("someone")

  /** The first instance waits in a user task, and everything fits. */
  ghost predicate AtUserTask(s: State, d: ProcessDefinition, variables: Variables) {
    Begun(s, d, variables) && Integrity(s) && d.nodes["work"] == USER
  }

  lemma UserTaskBegins(first: BpmnElement, second: BpmnElement, variables: Variables)
    requires !first.CallActivity? && !second.CallActivity? && "business_key" !in variables
    ensures var d := Process(USER, first, second); AtUserTask(Initial(d, variables, WaitForUser), d, variables)
  {
    var d := Process(USER, first, second);
    assert PlainCalls(d) && d.nodes["work"] == USER;
    hide Process, Begun, Integrity, PlainCalls, RunCalls, Fresh, Begin;
    Beginning(USER, first, second, variables);
    BeginningKeeps(d, variables, WaitForUser);
  }

  lemma UserTaskPending(s: State, d: ProcessDefinition, variables: Variables) returns (id: Uuid)
    requires AtUserTask(s, d, variables)
    ensures id in s.userTasks && For(s.userTasks[id], INSTANCE, "work", TOKEN, UserInfo("someone"))
  {
    assert HasUserTask(s, INSTANCE, AtWork(variables), "someone");
    id :| id in s.userTasks && For(s.userTasks[id], INSTANCE, "work", TOKEN, UserInfo("someone"));
  }

  lemma BoundaryPending(s: State, d: ProcessDefinition, variables: Variables, n: string) returns (id: Uuid)
    requires AtUserTask(s, d, variables) && n in d.order && n in BoundaryTimersOf(d, "work")
    ensures id in s.timers && s.timers[id].instanceId == INSTANCE && s.timers[id].nodeId == n
      && s.timers[id].tokenId == TOKEN
    ensures s.timers[id].data.timerDef == Some(d.nodes[n].timer) && s.timers[id].data.remaining.None?
  {
    assert HasTimer(s, INSTANCE, n, TOKEN, d.nodes[n].timer, Steps(0, []));
    id :| id in s.timers && s.timers[id].instanceId == INSTANCE && s.timers[id].nodeId == n
      && s.timers[id].tokenId == TOKEN
          && s.timers[id].data.timerDef == Some(d.nodes[n].timer) && s.timers[id].data.remaining.None?;
  }

  // ---- Dangling entries ----

  lemma ApplyMove(s: State, target: string, cancel: bool, env: Env)
    ensures Apply(s, Move(INSTANCE, target, map[], cancel, env)) == MoveToken(s, INSTANCE, target, map[], cancel, env).0
    ensures forall ok :: Apply(s, Delete(INSTANCE, ok)) == DeleteInstance(s, INSTANCE, ok).0
  {
    hide MoveToken, DeleteInstance;
  }

  lemma MoveFromTask(s: State, d: ProcessDefinition)
    requires AtUserTask(s, d, map[]) && "end" in d.nodes
    ensures !NoDanglingEntries(Apply(s, Move(INSTANCE, "end", map[], false, Steps(0, []))))
  {
    ApplyMove(s, "end", false, Steps(0, []));
    hide Apply, Integrity, NoDanglingEntries, MoveToken, HasWork, Sane;
    var id := UserTaskPending(s, d, map[]);
    assert !IntegrityLimits.NothingBound(s, INSTANCE);
    IntegrityLimits.MoveWithoutCancelling(s, INSTANCE, "end", map[], Steps(0, []));
  }

  lemma DeletionFromTask(s: State, d: ProcessDefinition)
    requires AtUserTask(s, d, map[])
    ensures !NoDanglingEntries(Apply(s, Delete(INSTANCE, false)))
  {
    ApplyMove(s, "end", false, Steps(0, []));
    hide Apply, Integrity, NoDanglingEntries, DeleteInstance, HasWork, Sane;
    var id := UserTaskPending(s, d, map[]);
    assert !IntegrityProofs.NoEntries(s, INSTANCE);
    IntegrityLimits.RefusedDeletion(s, INSTANCE);
  }

  /** Start, and move without cancelling; start, and delete with a store that refuses. */
  lemma TaskLeftBehind()
    ensures var s, begin := Fresh(map[DEF := Process(USER, EndEvent, EndEvent)]), Begin(map[], WaitForUser);
      && !NoDanglingEntries(RunCalls(s, [begin, Move(INSTANCE, "end", map[], false, Steps(0, []))]))
      && !NoDanglingEntries(RunCalls(s, [begin, Delete(INSTANCE, false)]))
  {
    var d := Process(USER, EndEvent, EndEvent);
    assert "end" in d.nodes;
    hide RunCalls, NoDanglingEntries, AtUserTask, Process, Begin, Apply, Fresh, Initial;
    UserTaskBegins(EndEvent, EndEvent, map[]);
    MoveFromTask(Initial(d, map[], WaitForUser), d);
    DeletionFromTask(Initial(d, map[], WaitForUser), d);
    AfterBegin(d, map[], WaitForUser, Move(INSTANCE, "end", map[], false, Steps(0, [])));
    AfterBegin(d, map[], WaitForUser, Delete(INSTANCE, false));
  }

  const EVERY: TimerDefinition := RepeatingInterval(Some(3), 10)
  const DEADLINE := BoundaryTimerEvent("work", EVERY, true)
  const REMINDER := BoundaryTimerEvent("work", EVERY, false)

  /** What the batch of a fired timer does: its token ends. */
  function Ending(at: Time): Env {
    Steps(at, [Step(map[], map[], "end", Complete(Plain))])
  }

  /** The timer is due. */
  function Due(s: State, id: Uuid): Call
    requires id in s.timers
  {
    Timers(s.timers[id].data.expiresAt, [id], [], Always(Ending(s.timers[id].data.expiresAt)))
  }

  /** The boundary timer `first` leads to the end. */
  ghost predicate FirstEnds(s: State, d: ProcessDefinition, id: Uuid) {
    && AtUserTask(s, d, map[]) && d.NextNodes("first") == [SequenceFlow("end", None)] && "end" in d.nodes
       && d.nodes["end"].EndEvent?
    && id in s.timers && s.timers[id].instanceId == INSTANCE && s.timers[id].nodeId == "first"
       && s.timers[id].tokenId == TOKEN
  }

  lemma FirstLeadsToEnd(s: State, d: ProcessDefinition, id: Uuid, at: Time)
    requires FirstEnds(s, d, id)
    ensures TimerLeadsTo(s, id, "end") && Rests(d, Token(TOKEN, "end", map[], false), Ending(at).steps[0])
      && DefOf(s, INSTANCE) == d
    ensures s.instances[INSTANCE].tokens[TOKEN].variables == map[] && !IsSuspended(s, INSTANCE)
  {
    hide Integrity, HasWork, Sane;
    assert ResolveNext([SequenceFlow("end", None)], map[]) == Some("end");
    hide ResolveNext;
    assert Present(s, INSTANCE, TOKEN);
    hide HasToken;
  }

  function EndHandover(s: State, d: ProcessDefinition): Handover
    requires HasToken(s, INSTANCE, TOKEN)
  {
    if NonInterruptingTimer(d, "first") then NonInterrupting(s, INSTANCE, TOKEN, Running, map[], "end")
      else Interrupting(s, INSTANCE, TOKEN, Running, map[], "end")
  }

  lemma TimerTakes(s: State, d: ProcessDefinition, id: Uuid, at: Time)
    requires FirstEnds(s, d, id)
    ensures HasToken(s, INSTANCE, TOKEN)
    ensures var (mid, r) := ResumeTimer(s, id, [], Ending(at));
      && TakenOn(s, (mid, r), EndHandover(s, d), Ending(at))
      && FireTimer(s, id, [], Ending(at)) == if r.Done? then (Reschedule(mid, s.timers[id], Ending(at)), Done)
         else (mid, r)
  {
    FirstLeadsToEnd(s, d, id, at);
    hide Sane, HasWork, FireTimer, ResumeTimer, TakenOn, Reschedule, NonInterruptingTimer, Integrity;
    hide TimerLeadsTo, Interrupting, NonInterrupting, Ending;
    TimerHandsOver(s, id, "end", [], Ending(at));
  }

  lemma EndTaken(s: State, d: ProcessDefinition, outcome: (State, Outcome), at: Time)
    requires HasToken(s, INSTANCE, TOKEN) && s.instances[INSTANCE].definitionKey == DEF
      && s.definitions == map[DEF := d]
    requires "end" in d.nodes && d.nodes["end"].EndEvent? && TakenOn(s, outcome, EndHandover(s, d), Ending(at))
    ensures var t := if NonInterruptingTimer(d, "first") then s.nextId else TOKEN;
      && outcome.1 == Done && INSTANCE in outcome.0.instances && t !in outcome.0.instances[INSTANCE].tokens
      && (t != TOKEN ==> TOKEN in outcome.0.instances[INSTANCE].tokens)
  {
    hide TakenOn, NonInterruptingTimer, HasWork, OnlyFor, Sane, DropTaskAt;
    hide RestedAfter;
    HandedOverRests(s, outcome, EndHandover(s, d), Ending(at));
    RestedParts(s, outcome.0, EndHandover(s, d), d.nodes["end"], Ending(at).steps[0].synced);
  }

  /** The timer's batch ends its token, or the copy of it. */
  lemma TimerEnds(s: State, d: ProcessDefinition, id: Uuid, at: Time)
    requires FirstEnds(s, d, id) && at == s.timers[id].data.expiresAt
    ensures FireTimer(s, id, [], Ending(at)).1 == Done && Apply(s, Due(s, id)) == FireTimer(s, id, [], Ending(at)).0
    ensures var s' := FireTimer(s, id, [], Ending(at)).0;
      var t := if NonInterruptingTimer(d, "first") then s.nextId else TOKEN;
      && HasToken(s, INSTANCE, TOKEN) && INSTANCE in s'.instances && t !in s'.instances[INSTANCE].tokens
      && (t != TOKEN ==> TOKEN in s'.instances[INSTANCE].tokens)
  {
    FirstLeadsToEnd(s, d, id, at);
    TimerTakes(s, d, id, at);
    hide Sane, HasWork, Apply, FireTimer, ResumeTimer, TakenOn, Reschedule, NonInterruptingTimer, Integrity;
    hide EndHandover, Ending, TimerLeadsTo, Rests;
    EndTaken(s, d, ResumeTimer(s, id, [], Ending(at)), at);
    IntegrityLimits.RescheduleKeepsInstances(ResumeTimer(s, id, [], Ending(at)).0, s.timers[id], Ending(at));
    FiresAlone(s, id, at, Ending(at));
    ApplyTimers(s, at, [id], [], Always(Ending(at)));
  }

  /** Start with a deadline that repeats, and let it pass. */
  lemma RepeatedDeadlineDangles() returns (due: Call)
    ensures !NoDanglingEntries(RunCalls(Fresh(map[DEF := Process(USER, DEADLINE, EndEvent)]),
      [Begin(map[], WaitForUser), due]))
  {
    var d := Process(USER, DEADLINE, EndEvent);
    var s := Initial(d, map[], WaitForUser);
    assert "first" in d.order && "first" in BoundaryTimersOf(d, "work") && !NonInterruptingTimer(d, "first");
    assert d.NextNodes("first") == [SequenceFlow("end", None)] && "end" in d.nodes && d.nodes["end"].EndEvent?
      && d.nodes["first"] == DEADLINE;
    hide Process, Initial, RunCalls, Fresh, Begin;
    UserTaskBegins(DEADLINE, EndEvent, map[]);
    var id := BoundaryPending(s, d, map[], "first");
    due := Due(s, id);
    AfterBegin(d, map[], WaitForUser, due);
    DeadlineDangles(s, d, id);
  }

  lemma DeadlineFits(s: State, d: ProcessDefinition, id: Uuid)
    requires FirstEnds(s, d, id)
    ensures Integrity(s) && id in s.timers && s.timers[id].instanceId == INSTANCE && s.timers[id].nodeId == "first"
    ensures s.timers[id].tokenId == TOKEN && INSTANCE in s.instances
      && s.instances[INSTANCE].tokens == map[TOKEN := AtWork(map[])]
    ensures AtWork(map[]).(currentNode := "end") == Token(TOKEN, "end", map[], false) && d.nodes["end"].EndEvent?
  {
    hide Integrity, HasWork, Sane;
  }

  lemma StraightToEnd(s: State, d: ProcessDefinition, id: Uuid, at: Time)
    requires FirstEnds(s, d, id) && !NonInterruptingTimer(d, "first") && Repeats(s.timers[id], Ending(at))
    ensures !NoDanglingEntries(FireTimer(s, id, [], Ending(at)).0)
  {
    FirstLeadsToEnd(s, d, id, at);
    DeadlineFits(s, d, id);
    hide Integrity, HasWork, FirstEnds, NoDanglingEntries, FireTimer, NonInterruptingTimer, Repeats;
    hide TimerLeadsTo, Rests;
    IntegrityLimits.StraightTimerDangles(s, id, "end", [], Ending(at));
  }

  lemma EveryRepeats(e: Entry<TimerInfo>, at: Time)
    requires e.data.timerDef == Some(EVERY) && e.data.remaining.None?
    ensures Repeats(e, Ending(at))
  {}

  lemma DeadlineDangles(s: State, d: ProcessDefinition, id: Uuid)
    requires FirstEnds(s, d, id) && !NonInterruptingTimer(d, "first")
    requires s.timers[id].data.timerDef == Some(EVERY) && s.timers[id].data.remaining.None?
    ensures !NoDanglingEntries(Apply(s, Due(s, id)))
  {
    hide NoDanglingEntries, Apply, FireTimer, NonInterruptingTimer, Repeats, Integrity, HasWork, Sane, Begun, Ending;
    var at := s.timers[id].data.expiresAt;
    EveryRepeats(s.timers[id], at);
    TimerEnds(s, d, id, at);
    StraightToEnd(s, d, id, at);
  }

  /** Start with a reminder and a deadline on the same task, and let the reminder fire: the task's token
      is still there, and the deadline is gone. */
  lemma ReminderRemovesDeadline() returns (due: Call, deadline: Uuid)
    ensures var d := Process(USER, REMINDER, DEADLINE); var s := Initial(d, map[], WaitForUser);
      && deadline in s.timers && s.timers[deadline].nodeId == "second"
    ensures var d := Process(USER, REMINDER, DEADLINE);
      var s := RunCalls(Fresh(map[DEF := d]), [Begin(map[], WaitForUser), due]);
      HasToken(s, INSTANCE, TOKEN) && deadline !in s.timers
  {
    var d := Process(USER, REMINDER, DEADLINE);
    var s := Initial(d, map[], WaitForUser);
    assert "first" in d.order && "first" in BoundaryTimersOf(d, "work") && NonInterruptingTimer(d, "first");
    assert "second" in d.order && "second" in BoundaryTimersOf(d, "work");
    assert d.NextNodes("first") == [SequenceFlow("end", None)] && "end" in d.nodes && d.nodes["end"].EndEvent?;
    hide Process, Initial, RunCalls, Fresh, Begin;
    UserTaskBegins(REMINDER, DEADLINE, map[]);
    var id := BoundaryPending(s, d, map[], "first");
    deadline := BoundaryPending(s, d, map[], "second");
    due := Due(s, id);
    AfterBegin(d, map[], WaitForUser, due);
    ReminderFires(s, d, id);
  }

  /** Start with a reminder and a deadline on the same task: once both are overdue, every call of
      `process_timers` fails, in whatever order it walks the timers. */
  lemma OverdueTimersFailTheCall() returns (reminder: Uuid, deadline: Uuid)
    ensures var s := Initial(Process(USER, REMINDER, DEADLINE), map[], WaitForUser);
      && reminder in s.timers && s.timers[reminder].nodeId == "first"
      && deadline in s.timers && s.timers[deadline].nodeId == "second"
      && forall now: Time, order: seq<Uuid>, defOrder: seq<Uuid>, envs: nat -> Env ::
           s.timers[reminder].data.expiresAt <= now && s.timers[deadline].data.expiresAt <= now
             && Enumerates(order, s.timers.Keys)
           ==> ProcessTimers(s, now, order, defOrder, envs).1.Err?
  {
    var d := Process(USER, REMINDER, DEADLINE);
    var s := Initial(d, map[], WaitForUser);
    assert "first" in d.order && "first" in BoundaryTimersOf(d, "work");
    assert "second" in d.order && "second" in BoundaryTimersOf(d, "work");
    hide Process, Initial, ProcessTimers, Enumerates;
    UserTaskBegins(REMINDER, DEADLINE, map[]);
    reminder := BoundaryPending(s, d, map[], "first");
    deadline := BoundaryPending(s, d, map[], "second");
    OverdueFail(s, d, reminder, deadline);
  }

  lemma OverdueFail(s: State, d: ProcessDefinition, x: Uuid, y: Uuid)
    requires AtUserTask(s, d, map[]) && x in s.timers && y in s.timers && x != y
    requires s.timers[x].instanceId == INSTANCE == s.timers[y].instanceId
    requires s.timers[x].tokenId == TOKEN == s.timers[y].tokenId
    ensures forall now: Time, order: seq<Uuid>, defOrder: seq<Uuid>, envs: nat -> Env ::
      s.timers[x].data.expiresAt <= now && s.timers[y].data.expiresAt <= now && Enumerates(order, s.timers.Keys)
      ==> ProcessTimers(s, now, order, defOrder, envs).1.Err?
  {
    hide Integrity, HasWork, ProcessTimers;
    forall now: Time, order: seq<Uuid>, defOrder: seq<Uuid>, envs: nat -> Env
      | s.timers[x].data.expiresAt <= now && s.timers[y].data.expiresAt <= now && Enumerates(order, s.timers.Keys)
      ensures ProcessTimers(s, now, order, defOrder, envs).1.Err?
    {
      assert x in s.timers.Keys && y in s.timers.Keys;
      SiblingsFailTheCall(s, now, order, defOrder, envs, x, y);
    }
  }

  lemma ReminderFires(s: State, d: ProcessDefinition, id: Uuid)
    requires FirstEnds(s, d, id) && NonInterruptingTimer(d, "first")
    ensures var s' := Apply(s, Due(s, id));
      && HasToken(s', INSTANCE, TOKEN)
      && forall x <- s.timers :: s.timers[x].instanceId == INSTANCE && s.timers[x].tokenId == TOKEN ==> x !in s'.timers
  {
    var at := s.timers[id].data.expiresAt;
    TimerEnds(s, d, id, at);
    TokenDrawn(s);
    hide Integrity, HasWork, Apply, FireTimer, NonInterruptingTimer;
    ReminderCancelsDeadline(s, id, [], Ending(at));
  }

  lemma TokenDrawn(s: State)
    requires Integrity(s) && HasToken(s, INSTANCE, TOKEN)
    ensures TOKEN < s.nextId
  {
    assert TokensOk(s.instances[INSTANCE].tokens, s.nextId);
  }

  lemma ReminderTicks(s: State, d: ProcessDefinition, id: Uuid)
    requires FirstEnds(s, d, id) && NonInterruptingTimer(d, "first")
    ensures Ticking(s, id, "end")
  {
    FirstLeadsToEnd(s, d, id, 0);
    TokenDrawn(s);
    hide Integrity, HasWork, Sane, TimerLeadsTo, NonInterruptingTimer, Rests;
  }

  /** Start with a reminder `R3/PT10S` and leave the task alone: for every number there is a run from an
      empty engine, whose clock does not run backwards, in which the reminder fires that often. */
  lemma ReminderFiresWithoutEnd(clock: Time, k: nat) returns (id: Uuid, calls: seq<Call>)
    ensures var s := Initial(Process(USER, REMINDER, EndEvent), map[], WaitForUser);
      && id in s.timers && s.timers[id].data.timerDef == Some(RepeatingInterval(Some(3), 10))
      && ClockFrom(calls, clock) && |calls| == k && s.fired <= RunCalls(s, calls).fired
      && Firings(RunCalls(s, calls).fired[|s.fired|..], s.timers[id].data.origin) == k
  {
    var d := Process(USER, REMINDER, EndEvent);
    var s := Initial(d, map[], WaitForUser);
    assert "first" in d.order && "first" in BoundaryTimersOf(d, "work") && NonInterruptingTimer(d, "first");
    assert d.NextNodes("first") == [SequenceFlow("end", None)] && "end" in d.nodes && d.nodes["end"].EndEvent?
      && d.nodes["first"] == REMINDER;
    hide Process, Initial, RunCalls, Fresh, Begin;
    UserTaskBegins(REMINDER, EndEvent, map[]);
    id := BoundaryPending(s, d, map[], "first");
    ReminderTicks(s, d, id);
    calls := ChainFiresWithoutEnd(s, id, "end", clock, k);
  }

  // ---- Instances that complete ----

  /** Start to end, with nothing between them. */
  function StraightOn(): Env {
    Steps(0, [Step(map[], map[], "work", Action.Continue("work")), Step(map[], map[], "work", Complete(Plain))])
  }

  lemma StraightPath(d: ProcessDefinition)
    requires d == Process(EndEvent, EndEvent, EndEvent)
    ensures StartEventOf(d, d.order) == Some("start") && d.nodes["start"] == StartEvent && d.nodes["work"] == EndEvent
    ensures PathToEnd(d, "start", StraightOn().steps, "work")
  {
    var steps := StraightOn().steps;
    assert steps[1..] == [steps[1]] && PathToEnd(d, "work", steps[1..], "work");
  }

  /** Start an instance of a process that leads straight to its end: it is completed. */
  lemma StartedInstanceCompletes()
    ensures var s := RunCalls(Fresh(map[DEF := Process(EndEvent, EndEvent, EndEvent)]),
      [Start(DEF, map[], StraightOn())]);
      INSTANCE in s.instances && s.instances[INSTANCE].state == Completed
  {
    var d := Process(EndEvent, EndEvent, EndEvent);
    var s := Fresh(map[DEF := d]);
    FreshStarts(d);
    StraightPath(d);
    ApplyStart(s, map[], StraightOn());
    RunOne(s, Start(DEF, map[], StraightOn()));
    hide Process, Fresh, Sane, PathToEnd, StartInstance, RunCalls, Apply, StartEventOf, StraightOn;
    assert |StraightOn().steps| == 2 by { TwoSteps(); }
    StartToEndCompletes(s, DEF, "start", map[], "work", StraightOn());
  }

  lemma TwoSteps()
    ensures |StraightOn().steps| == 2
  {}

  lemma TaskLeadsToEnd(s: State, d: ProcessDefinition, id: Uuid)
    requires AtUserTask(s, d, map[]) && d.NextNodes("work") == [SequenceFlow("end", None)] && "end" in d.nodes
      && d.nodes["end"] == EndEvent
    requires id in s.userTasks && For(s.userTasks[id], INSTANCE, "work", TOKEN, UserInfo("someone"))
    ensures Present(s, INSTANCE, TOKEN) && !IsSuspended(s, INSTANCE) && LeadsTo(s, INSTANCE, "work", map[], "end")
    ensures PathToEnd(d, "end", Ending(0).steps, "end") && DefOf(s, INSTANCE) == d
    ensures s.instances[INSTANCE].tokens == map[TOKEN := AtWork(map[])] && s.instances[INSTANCE].activeTokens == []
  {
    hide Integrity, HasWork, Sane;
    assert ResolveNext([SequenceFlow("end", None)], map[]) == Some("end");
  }

  /** What the task's completion hands over. */
  function LastHandover(s: State, id: Uuid): Handover
    requires INSTANCE in s.instances && s.instances[INSTANCE].definitionKey in s.definitions
  {
    var inst := s.instances[INSTANCE];
    LeavingTask(s, INSTANCE, TOKEN, "work", Leaving(inst, TOKEN, RunningOn(inst.state), map[], "end"),
                Token(TOKEN, "end", map[], false), s.userTasks - {id}, s.serviceTasks)
  }

  lemma LastTaskHandsOver(s: State, id: Uuid)
    requires id in s.userTasks && For(s.userTasks[id], INSTANCE, "work", TOKEN, UserInfo("someone"))
    requires Present(s, INSTANCE, TOKEN) && !IsSuspended(s, INSTANCE) && LeadsTo(s, INSTANCE, "work", map[], "end")
    requires s.instances[INSTANCE].tokens == map[TOKEN := AtWork(map[])] && s.instances[INSTANCE].activeTokens == []
    ensures TakenOn(s, CompleteUserTask(s, id, map[], Ending(0)), LastHandover(s, id), Ending(0))
    ensures LastHandover(s, id).inst.tokens == map[] && LastHandover(s, id).inst.activeTokens == []
  {
    var none: Variables := map[];
    assert s.instances[INSTANCE].tokens[TOKEN].variables + none == none;
    assert Ending(0).endScript(none) == Some(none);
    hide CompleteUserTask, TakenOn, LeadsTo, WithoutTimersOn, WithoutMessagesOn, IsSuspended, Ending, Sane;
    UserTaskHandsOver(s, id, map[], map[], "end", Ending(0));
  }

  lemma LastTaskCompletes(s: State, d: ProcessDefinition, id: Uuid)
    requires AtUserTask(s, d, map[]) && d.NextNodes("work") == [SequenceFlow("end", None)] && "end" in d.nodes
      && d.nodes["end"] == EndEvent
    requires id in s.userTasks && For(s.userTasks[id], INSTANCE, "work", TOKEN, UserInfo("someone"))
    ensures var (s', r) := CompleteUserTask(s, id, map[], Ending(0));
      && r == Done && id !in s'.userTasks && INSTANCE in s'.instances
      && s'.instances[INSTANCE].tokens == map[] && s'.instances[INSTANCE].state == Completed
  {
    TaskLeadsToEnd(s, d, id);
    LastTaskHandsOver(s, id);
    assert |Ending(0).steps| == 1;
    hide CompleteUserTask, AtUserTask, TakenOn, Present, LeadsTo, PathToEnd, WithoutTimersOn, WithoutMessagesOn;
    hide IsSuspended, Ending, For, Sane;
    SoleHandedOverCompletes(s, CompleteUserTask(s, id, map[], Ending(0)), LastHandover(s, id), "end", Ending(0));
  }

  /** Start an instance that waits in a user task, and complete the task: the instance is completed. */
  lemma CompletedTaskCompletesInstance() returns (id: Uuid)
    ensures var s := Initial(Process(USER, EndEvent, EndEvent), map[], WaitForUser);
      INSTANCE in s.instances && !s.instances[INSTANCE].state.Terminal() && id in s.userTasks
    ensures var s := RunCalls(Fresh(map[DEF := Process(USER, EndEvent, EndEvent)]),
                              [Begin(map[], WaitForUser), UserDone(id, map[], Ending(0))]);
      && INSTANCE in s.instances && s.instances[INSTANCE].state == Completed && s.instances[INSTANCE].tokens == map[]
      && id !in s.userTasks
  {
    var d := Process(USER, EndEvent, EndEvent);
    var s := Initial(d, map[], WaitForUser);
    assert d.NextNodes("work") == [SequenceFlow("end", None)] && "end" in d.nodes && d.nodes["end"] == EndEvent;
    hide Process, Initial, RunCalls, Fresh, Begin, CompleteUserTask;
    UserTaskBegins(EndEvent, EndEvent, map[]);
    id := UserTaskPending(s, d, map[]);
    LastTaskCompletes(s, d, id);
    AfterBegin(d, map[], WaitForUser, UserDone(id, map[], Ending(0)));
    ApplyDone(s, id, Ending(0));
    hide AtUserTask, Apply;
    NotYetOver(s, d);
  }

  lemma ApplyDone(s: State, id: Uuid, env: Env)
    ensures Apply(s, UserDone(id, map[], env)) == CompleteUserTask(s, id, map[], env).0
  {
    hide CompleteUserTask;
  }

  lemma NotYetOver(s: State, d: ProcessDefinition)
    requires AtUserTask(s, d, map[])
    ensures INSTANCE in s.instances && !s.instances[INSTANCE].state.Terminal()
  {
    hide Integrity, HasWork, Sane;
  }

  // ---- The rollback of a user task ----

  /** Start, and complete the task with a new variable when the end script fails: the call fails, and the
      state is not what it was. */
  lemma FailedCompletionLeavesVariable() returns (id: Uuid)
    ensures var s := Initial(Process(USER, EndEvent, EndEvent), map[], WaitForUser);
      var (s', r) := CompleteUserTask(s, id, map["x" := Null], Env(0, (_, _) => None, _ => None, []));
      r.Failed? && s' != s
  {
    var d := Process(USER, EndEvent, EndEvent);
    var s := Initial(d, map[], WaitForUser);
    hide Process, Initial;
    UserTaskBegins(EndEvent, EndEvent, map[]);
    id := UserTaskPending(s, d, map[]);
    RollbackDiffers(s, d, id, Env(0, (_, _) => None, _ => None, []));
  }

  lemma RollbackDiffers(s: State, d: ProcessDefinition, id: Uuid, env: Env)
    requires AtUserTask(s, d, map[]) && id in s.userTasks
      && For(s.userTasks[id], INSTANCE, "work", TOKEN, UserInfo("someone"))
    requires forall v :: env.endScript(v).None?
    ensures var (s', r) := CompleteUserTask(s, id, map["x" := Null], env); r.Failed? && s' != s
  {
    var extra := map["x" := Null];
    assert "x" in s.instances[INSTANCE].tokens[TOKEN].variables + extra;
    hide Integrity, HasWork, Sane, CompleteUserTask;
    Rollback.RollbackLeaves(s, id, extra, env);
    Rollback.RollbackRestoresIff(s, id, extra, env);
  }

  // ---- Suspension and variables ----

  const SERVICE := ServiceTask("topic")

  lemma ServiceTaskBegins(variables: Variables) returns (id: Uuid)
    requires "business_key" !in variables
    ensures var d := Process(SERVICE, EndEvent, EndEvent); var s := Initial(d, variables, WaitForServiceTask);
      && Begun(s, d, variables) && id in s.serviceTasks
      && For(s.serviceTasks[id], INSTANCE, "work", TOKEN, ServiceInfo(DEF, "topic", None, None, 3, None, None))
  {
    var d := Process(SERVICE, EndEvent, EndEvent);
    var s := Initial(d, variables, WaitForServiceTask);
    assert d.nodes["work"] == SERVICE && d.key == DEF;
    Beginning(SERVICE, EndEvent, EndEvent, variables);
    hide Process, Initial, RunCalls, Begin, Fresh;
    assert HasServiceTask(s, d, INSTANCE, AtWork(variables), "topic");
    id :| id in s.serviceTasks
      && For(s.serviceTasks[id], INSTANCE, "work", TOKEN, ServiceInfo(DEF, "topic", None, None, 3, None, None));
  }

  function FetchOne(id: Uuid): Call {
    Fetch("worker", 1, ["topic"], 100, 0, [id])
  }

  /** A state with an unlocked service task of the first instance. */
  ghost predicate Offered(s: State, id: Uuid) {
    && Sane(s) && INSTANCE in s.instances && !s.instances[INSTANCE].state.Suspended?
       && !s.instances[INSTANCE].state.Terminal()
    && id in s.serviceTasks && s.serviceTasks[id].instanceId == INSTANCE && s.serviceTasks[id].tokenId == TOKEN
    && s.serviceTasks[id].data.topic == "topic" && s.serviceTasks[id].data.lockExpiration.None?
  }

  lemma Fetched(s: State, id: Uuid)
    requires Offered(s, id)
    ensures var s' := Apply(s, FetchOne(id));
      s' == s.(serviceTasks := s.serviceTasks[id := Locked(s.serviceTasks[id], "worker", 100)])
        && HeldBy(s', id, "worker") && Sane(s')
  {
    assert [id][0] == id && [id][1..] == [];
    assert LockTasks(s.serviceTasks[id := Locked(s.serviceTasks[id], "worker", 100)], [], "worker", 0, ["topic"], 0,
      100).0
        == s.serviceTasks[id := Locked(s.serviceTasks[id], "worker", 100)];
    assert FetchAndLock(s, "worker", 1, ["topic"], 100, 0, [id]).0
        == s.(serviceTasks := s.serviceTasks[id := Locked(s.serviceTasks[id], "worker", 100)]);
  }

  lemma Paused(s: State)
    requires Sane(s) && INSTANCE in s.instances && !s.instances[INSTANCE].state.Suspended?
      && !s.instances[INSTANCE].state.Terminal()
    ensures var s' := Apply(s, Pause(INSTANCE));
      Sane(s') && IsSuspended(s', INSTANCE) && s'.serviceTasks == s.serviceTasks
    ensures Apply(s, Pause(INSTANCE)).catches == s.catches
  {}

  /** A worker holds a task of the suspended instance and reports an error. */
  lemma ErrorBreaksIn(s: State, id: Uuid)
    requires Offered(s, id)
    ensures var s' := Apply(Apply(s, FetchOne(id)), Pause(INSTANCE));
      IsSuspended(s', INSTANCE)
        && !Suspension.Frozen(s', Apply(s', Error(id, "worker", "code", Steps(0, []))), INSTANCE)
  {
    Fetched(s, id);
    var held := Apply(s, FetchOne(id));
    Paused(held);
    var s' := Apply(held, Pause(INSTANCE));
    assert Apply(s', Error(id, "worker", "code", Steps(0, [])))
      == HandleBpmnError(s', id, "worker", "code", Steps(0, [])).0;
    hide Apply, HandleBpmnError, Sane;
    Suspension.ErrorIgnoresSuspension(s', id, "worker", "code", Steps(0, []), INSTANCE);
  }

  /** Start, and let one worker fetch the service task and never come back: when its lock has run out, a
      second worker that asks for the topic gets the task. */
  lemma AbandonedTaskIsHandedOut() returns (id: Uuid)
    ensures var s := RunCalls(Initial(Process(SERVICE, EndEvent, EndEvent), map[], WaitForServiceTask), [FetchOne(id)]);
      var (s', granted) := FetchAndLock(s, "other", 1, ["topic"], 100, 200, [id]);
      && HeldBy(s, id, "worker") && |granted| == 1 && granted[0].id == id && HeldBy(s', id, "other")
  {
    var s := Initial(Process(SERVICE, EndEvent, EndEvent), map[], WaitForServiceTask);
    hide Initial, Process, Apply, RunCalls, HasWork;
    id := ServiceTaskBegins(map[]);
    assert Offered(s, id);
    hide Begun;
    Fetched(s, id);
    RunOne(s, FetchOne(id));
    GoesToOther(Apply(s, FetchOne(id)), id);
  }

  lemma GoesToOther(s: State, id: Uuid)
    requires HeldBy(s, id, "worker") && s.serviceTasks[id].id == id && s.serviceTasks[id].data.topic == "topic"
    requires s.serviceTasks[id].data.lockExpiration == Some(100)
    ensures var (s', granted) := FetchAndLock(s, "other", 1, ["topic"], 100, 200, [id]);
      |granted| == 1 && granted[0].id == id && HeldBy(s', id, "other")
  {
    assert [id][0] == id && [id][1..] == [];
    var e := Locked(s.serviceTasks[id], "other", 300);
    assert LockTasks(s.serviceTasks[id := e], [], "other", 0, ["topic"], 200, 300) == (s.serviceTasks[id := e], []);
    assert [e] + [] == [e];
  }

  lemma FailedForGood(s: State, id: Uuid)
    requires Sane(s) && HeldBy(s, id, "worker")
    ensures var s' := Apply(s, ServiceFailed(id, "worker", Some(0), None, None));
      && s'.instances == s.instances && Sane(s') && id in s'.serviceTasks && s'.serviceTasks[id].data.retries == 0
      && s'.serviceTasks[id].instanceId == s.serviceTasks[id].instanceId
  {
    assert s.serviceTasks[id].id == id;
    assert Apply(s, ServiceFailed(id, "worker", Some(0), None, None))
      == FailServiceTask(s, id, "worker", Some(0), None, None).0;
    hide Apply;
  }

  lemma ApplyResolve(s: State, id: Uuid, env: Env)
    ensures Apply(s, Resolve(id, map[], env)) == ResolveIncident(s, id, map[], env).0
  {
    hide ResolveIncident;
  }

  /** A task of the suspended instance has no retries left and is resolved by hand. */
  lemma ResolutionBreaksIn(s: State, id: Uuid)
    requires Offered(s, id)
    ensures var s' := Apply(Apply(Apply(s, FetchOne(id)), ServiceFailed(id, "worker", Some(0), None, None)),
      Pause(INSTANCE));
      IsSuspended(s', INSTANCE) && !Suspension.Frozen(s', Apply(s', Resolve(id, map[], Steps(0, []))), INSTANCE)
  {
    hide Apply, FetchOne;
    Fetched(s, id);
    FailedForGood(Apply(s, FetchOne(id)), id);
    var failed := Apply(Apply(s, FetchOne(id)), ServiceFailed(id, "worker", Some(0), None, None));
    Paused(failed);
    var s' := Apply(failed, Pause(INSTANCE));
    ApplyResolve(s', id, Steps(0, []));
    hide ResolveIncident, Sane;
    Suspension.ResolveIgnoresSuspension(s', id, map[], Steps(0, []), INSTANCE);
  }

  lemma RunTwo(s: State, a: Call, b: Call)
    ensures RunCalls(s, [a, b]) == Apply(Apply(s, a), b)
  {
    RunOne(s, a);
    RunNext(s, [a], b);
    hide Apply;
    assert [a] + [b] == [a, b];
  }

  lemma RunThree(s: State, a: Call, b: Call, c: Call)
    ensures RunCalls(s, [a, b, c]) == Apply(Apply(Apply(s, a), b), c)
  {
    RunTwo(s, a, b);
    RunNext(s, [a, b], c);
    hide Apply;
    assert [a, b] + [c] == [a, b, c];
  }

  /** Start, fetch the service task, suspend: an error report still changes the suspended instance. Let
      the task fail for good before that: a resolution changes it too. */
  lemma SuspendedInstanceChanges() returns (id: Uuid)
    ensures var s := Initial(Process(SERVICE, EndEvent, EndEvent), map[], WaitForServiceTask);
      var a := RunCalls(s, [FetchOne(id), Pause(INSTANCE)]);
      IsSuspended(a, INSTANCE) && !Suspension.Frozen(a, Apply(a, Error(id, "worker", "code", Steps(0, []))), INSTANCE)
    ensures var s := Initial(Process(SERVICE, EndEvent, EndEvent), map[], WaitForServiceTask);
      var b := RunCalls(s, [FetchOne(id), ServiceFailed(id, "worker", Some(0), None, None), Pause(INSTANCE)]);
      IsSuspended(b, INSTANCE) && !Suspension.Frozen(b, Apply(b, Resolve(id, map[], Steps(0, []))), INSTANCE)
  {
    var s := Initial(Process(SERVICE, EndEvent, EndEvent), map[], WaitForServiceTask);
    hide Initial, Process, Apply, Suspension.Frozen, IsSuspended, RunCalls, FetchOne, HasWork;
    id := ServiceTaskBegins(map[]);
    assert Offered(s, id);
    hide Offered;
    ErrorBreaksIn(s, id);
    ResolutionBreaksIn(s, id);
    RunTwo(s, FetchOne(id), Pause(INSTANCE));
    RunThree(s, FetchOne(id), ServiceFailed(id, "worker", Some(0), None, None), Pause(INSTANCE));
  }

  const MESSAGE := MessageCatchEvent("hello")

  lemma MessageBreaksIn(s: State, d: ProcessDefinition, id: Uuid)
    requires Begun(s, d, map[]) && id in s.catches && For(s.catches[id], INSTANCE, "work", TOKEN, CatchInfo("hello"))
    ensures var s' := Apply(s, Pause(INSTANCE));
      IsSuspended(s', INSTANCE)
      && !Suspension.Frozen(s', Apply(s', Message("hello", None, map[], [id], [], Always(Steps(0, [])))), INSTANCE)
  {
    hide HasWork;
    Paused(s);
    var s' := Apply(s, Pause(INSTANCE));
    MatchesAlone(s', id);
    assert Apply(s', Message("hello", None, map[], [id], [], Always(Steps(0, []))))
        == CorrelateMessage(s', "hello", None, map[], [id], [], Always(Steps(0, []))).0;
    hide Apply, CorrelateMessage, Sane, FireCatches, Suspension.Frozen;
    Suspension.MatchedMessageFreezesIff(s', "hello", None, map[], [id], [], Always(Steps(0, [])), INSTANCE, 0);
    assert MatchingCatches(s', "hello", None, [id])[..0] == [];
    Suspension.NothingFires(s', map[], [], Always(Steps(0, [])));
  }

  lemma MatchesAlone(s: State, id: Uuid)
    requires INSTANCE in s.instances && id in s.catches
      && For(s.catches[id], INSTANCE, "work", TOKEN, CatchInfo("hello"))
    ensures MatchingCatches(s, "hello", None, [id]) == [id]
  {
    assert [id][0] == id && [id][1..] == [] && MatchingCatches(s, "hello", None, []) == [];
  }

  /** Start an instance that waits for a message, suspend it, and send the message. */
  lemma MessageReachesSuspendedInstance() returns (id: Uuid)
    ensures var s := RunCalls(Initial(Process(MESSAGE, EndEvent, EndEvent), map[], WaitForMessage), [Pause(INSTANCE)]);
      IsSuspended(s, INSTANCE)
      && !Suspension.Frozen(s, Apply(s, Message("hello", None, map[], [id], [], Always(Steps(0, [])))), INSTANCE)
  {
    var d := Process(MESSAGE, EndEvent, EndEvent);
    var s := Initial(d, map[], WaitForMessage);
    assert d.nodes["work"] == MESSAGE;
    Beginning(MESSAGE, EndEvent, EndEvent, map[]);
    hide Process, Initial, RunCalls, Begin, Fresh, Apply, Suspension.Frozen;
    assert HasCatch(s, INSTANCE, "work", TOKEN, "hello");
    id :| id in s.catches && For(s.catches[id], INSTANCE, "work", TOKEN, CatchInfo("hello"));
    MessageBreaksIn(s, d, id);
    RunOne(s, Pause(INSTANCE));
  }

  const FLAG: Variables := map["k" := Bool(true)]

  /** The batch of the completed task: its token ends. */
  function Completing(): Env {
    Steps(0, [Step(FLAG, FLAG, "end", Complete(Plain))])
  }

  /** The first instance's service task is held, and variable `k` was removed from the instance. */
  ghost predicate FlagRemoved(s: State, d: ProcessDefinition, id: Uuid) {
    && Sane(s) && s.definitions == map[DEF := d] && INSTANCE in s.instances
       && s.instances[INSTANCE].definitionKey == DEF
    && !IsSuspended(s, INSTANCE) && HeldBy(s, id, "worker") && s.serviceTasks[id].instanceId == INSTANCE
    && s.serviceTasks[id].tokenId == TOKEN && s.serviceTasks[id].nodeId == "work"
    && s.instances[INSTANCE].tokens == map[TOKEN := AtWork(FLAG)] && s.instances[INSTANCE].variables == map[]
  }

  lemma UpdateRemovesFlag(inst: Instance)
    requires inst.variables == FLAG && inst.tokens == map[TOKEN := AtWork(FLAG)]
    ensures UpdatedInstance(inst, map["k" := Null]) == inst.(variables := map[])
  {
    assert Merged(FLAG, map["k" := Null]) == map[] && Merged(FLAG, map[]) == FLAG;
    assert RefreshedTokens(inst.tokens, map[]) == inst.tokens;
  }

  lemma FlagIsRemoved(s: State, d: ProcessDefinition, id: Uuid)
    requires Begun(s, d, FLAG) && Offered(s, id) && s.serviceTasks[id].nodeId == "work"
    ensures FlagRemoved(Apply(Apply(s, FetchOne(id)), Update(INSTANCE, map["k" := Null])), d, id)
  {
    hide HasWork, UpdatedInstance, FetchOne;
    Fetched(s, id);
    var held := Apply(s, FetchOne(id));
    UpdateRemovesFlag(held.instances[INSTANCE]);
    assert Apply(held, Update(INSTANCE, map["k" := Null]))
      == held.WithInstance(INSTANCE, held.instances[INSTANCE].(variables := map[])) by {
      hide Sane;
    }
    hide Apply;
  }

  lemma FlagLeads(s: State, d: ProcessDefinition, id: Uuid)
    requires FlagRemoved(s, d, id) && d.NextNodes("work") == [SequenceFlow("end", None)] && "end" in d.nodes
      && d.nodes["end"].EndEvent?
    ensures ServiceLeadsTo(s, id, FLAG, "end") && Completing().endScript(AtWork(FLAG).variables + map[]) == Some(FLAG)
    ensures Rests(d, Token(TOKEN, "end", FLAG, false), Completing().steps[0])
  {
    assert ResolveNext([SequenceFlow("end", None)], FLAG) == Some("end");
    assert FLAG + map[] == FLAG;
    hide Sane;
  }

  lemma FlagComesBack(s: State, d: ProcessDefinition, id: Uuid)
    requires FlagRemoved(s, d, id) && d.NextNodes("work") == [SequenceFlow("end", None)] && "end" in d.nodes
      && d.nodes["end"].EndEvent?
    ensures var (s', r) := CompleteServiceTask(s, id, "worker", map[], Completing());
      r == Done && INSTANCE in s'.instances && "k" in s'.instances[INSTANCE].variables
  {
    FlagLeads(s, d, id);
    hide CompleteServiceTask, Sane, TakenOn, HasWork, OnlyFor, ServiceLeadsTo, Rests;
    ServiceTaskHandsOver(s, id, "worker", map[], FLAG, "end", Completing());
    HandedOverRests(s, CompleteServiceTask(s, id, "worker", map[], Completing()),
                    ServiceHandover(s, id, RunningOn(s.instances[INSTANCE].state), FLAG, FLAG, "end"), Completing());
  }

  /** Start with a variable, fetch the service task, remove the variable, and complete the task: the
      completion succeeds, and the variable is back. */
  lemma RemovedVariableIsBack() returns (id: Uuid)
    ensures var s := RunCalls(Initial(Process(SERVICE, EndEvent, EndEvent), FLAG, WaitForServiceTask),
                              [FetchOne(id), Update(INSTANCE, map["k" := Null])]);
      var (s', r) := CompleteServiceTask(s, id, "worker", map[], Completing());
      && INSTANCE in s.instances && "k" !in s.instances[INSTANCE].variables
      && r == Done && INSTANCE in s'.instances && "k" in s'.instances[INSTANCE].variables
  {
    var d := Process(SERVICE, EndEvent, EndEvent);
    var s := Initial(d, FLAG, WaitForServiceTask);
    assert d.NextNodes("work") == [SequenceFlow("end", None)] && "end" in d.nodes && d.nodes["end"].EndEvent?;
    hide Initial, Process, Apply, RunCalls, FetchOne, HasWork, CompleteServiceTask;
    id := ServiceTaskBegins(FLAG);
    assert Offered(s, id);
    hide Offered;
    FlagIsRemoved(s, d, id);
    var removed := Apply(Apply(s, FetchOne(id)), Update(INSTANCE, map["k" := Null]));
    FlagComesBack(removed, d, id);
    RunTwo(s, FetchOne(id), Update(INSTANCE, map["k" := Null]));
  }

  // ---- Call activities ----

  const CALL := CallActivity("other")

  /** Start an instance whose token comes to a call activity with a deadline: the deadline names a token
      that is stored nowhere. */
  lemma CallActivityDangles()
    ensures !NoDanglingEntries(Initial(Process(CALL, DEADLINE, EndEvent), map[], WaitForCallActivity))
  {
    var d := Process(CALL, DEADLINE, EndEvent);
    var s, c := Fresh(map[DEF := d]), Begin(map[], WaitForCallActivity);
    var none: Variables := map[];
    assert StartEventOf(d, d.order) == Some("start") && none - {"business_key"} == none
      && d.nodes["start"] == StartEvent;
    hide Process;
    StartIs(s, d, c.env);
    ApplyStart(s, none, c.env);
    CallStarts(d);
    hide Run, Started, NoDanglingEntries, RunCalls, StartEventOf, Apply, StartInstance, Fresh;
    RunOne(s, c);
  }

  lemma StartIs(s: State, d: ProcessDefinition, env: Env)
    requires s.nextId == 1 && s.definitions == map[DEF := d] && StartEventOf(d, d.order) == Some("start")
      && d.nodes["start"] == StartEvent
    ensures StartInstance(s, DEF, map[], env).0
         == Run(Started(s, DEF, "start", map[], env), INSTANCE, Token(TOKEN, "start", map[], false), env).0
  {
    var none: Variables := map[];
    assert none - {"business_key"} == none;
    hide Run, Started, StartEventOf;
  }

  /** The instance before its batch. */
  ghost predicate CallReady(s: State, d: ProcessDefinition) {
    && Sane(s) && s.timers == map[] && s.catches == map[] && s.userTasks == map[] && s.serviceTasks == map[]
    && INSTANCE in s.instances && s.instances[INSTANCE].tokens == map[] && s.definitions == map[DEF := d]
    && s.instances[INSTANCE].definitionKey == DEF
  }

  lemma CallIsReady(d: ProcessDefinition, env: Env)
    requires d.eventListeners == []
    ensures CallReady(Started(Fresh(map[DEF := d]), DEF, "start", map[], env), d)
  {
    hide BusinessKeyOf;
  }

  /** The nodes of the process, in order. */
  lemma FiveNodes<T>(order: seq<string>, nodes: map<string, T>)
    requires order == ["start", "work", "end", "first", "second"]
      && nodes.Keys == {"start", "work", "end", "first", "second"}
    ensures Enumerates(order, nodes.Keys)
  {}

  lemma CallProcess(d: ProcessDefinition)
    requires d == Process(CALL, DEADLINE, EndEvent)
    ensures "first" in BoundaryTimersOf(d, "work") && Enumerates(d.order, d.nodes.Keys) && d.eventListeners == []
    ensures "start" in d.nodes && d.nodes["start"] == StartEvent && "work" in d.nodes && d.nodes["work"] == CALL
  {
    hide Enumerates;
    FiveNodes(d.order, d.nodes);
  }

  lemma CallParks(s: State, d: ProcessDefinition, go: Step, wait: Step, env: Env)
    requires CallReady(s, d) && "first" in BoundaryTimersOf(d, "work") && Enumerates(d.order, d.nodes.Keys)
    requires "start" in d.nodes && d.nodes["start"] == StartEvent && "work" in d.nodes && d.nodes["work"] == CALL
    requires env.steps == [go] + [wait] && go.variables == map[] == wait.variables
    requires go.action == Action.Continue("work") && wait.action == WaitForCallActivity
    ensures !NoDanglingEntries(Run(s, INSTANCE, Token(TOKEN, "start", map[], false), env).0)
  {
    var p := Prelude(s, INSTANCE, go);
    var q := Prelude(p, INSTANCE, wait);
    assert CanStep(s, INSTANCE, Token(TOKEN, "start", map[], false), go) && CanStep(p, INSTANCE, AtWork(map[]), wait);
    hide RunBatch, WaitCall, BoundaryTimersOf, BoundaryMessagesOf;
    StepContinues(s, INSTANCE, Token(TOKEN, "start", map[], false), go, [wait], "work", env, 0);
    OneStep(p, INSTANCE, AtWork(map[]), wait, env, 1);
    assert Sane(q) && NoDanglingEntries(q);
    hide NoDanglingEntries;
    IntegrityLimits.CallActivityBoundaries(q, d, INSTANCE, AtWork(map[]), env);
  }

  lemma CallStarts(d: ProcessDefinition)
    requires d == Process(CALL, DEADLINE, EndEvent)
    ensures var c := Begin(map[], WaitForCallActivity);
      var s1 := Started(Fresh(map[DEF := d]), DEF, "start", map[], c.env);
      !NoDanglingEntries(Run(s1, INSTANCE, Token(TOKEN, "start", map[], false), c.env).0)
  {
    var c := Begin(map[], WaitForCallActivity);
    CallProcess(d);
    assert c.env.steps == [c.env.steps[0]] + [c.env.steps[1]];
    hide Started, Process, NoDanglingEntries, Run, BoundaryTimersOf, CallReady, Fresh;
    CallIsReady(d, c.env);
    CallParks(Started(Fresh(map[DEF := d]), DEF, "start", map[], c.env), d, c.env.steps[0], c.env.steps[1], c.env);
  }
}
