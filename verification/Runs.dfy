/** Runs: any sequence of engine calls, in any order, with any arguments. */
module Runs {
  import opened Values
  import opened Definition
  import opened EngineState
  import opened Executor
  import opened Operations

  datatype Call =
    | UserDone(id: Uuid, extra: Variables, env: Env)
    | Fetch(worker: string, max: nat, topics: seq<string>, duration: int, now: Time, order: seq<Uuid>)
    | ServiceDone(id: Uuid, worker: string, extra: Variables, env: Env)
    | ServiceFailed(id: Uuid, worker: string, retries: Option<int>, message: Option<string>, details: Option<string>)
    | Retry(id: Uuid, retries: Option<int>)
    | Resolve(id: Uuid, extra: Variables, env: Env)
    | Extend(id: Uuid, worker: string, duration: int, now: Time)
    | Error(id: Uuid, worker: string, code: string, env: Env)
    | Start(key: Uuid, variables: Variables, env: Env)
    | Timers(now: Time, order: seq<Uuid>, defOrder: seq<Uuid>, envs: nat -> Env)
    | Message(name: string, businessKey: Option<string>, variables: Variables,
              order: seq<Uuid>, defOrder: seq<Uuid>, envs: nat -> Env)
    | Update(i: Uuid, update: Variables)
    | Pause(i: Uuid)
    | Continue(i: Uuid)
    | Move(i: Uuid, target: string, update: Variables, cancel: bool, env: Env)
    | MigrateTo(i: Uuid, key: Uuid, mapping: map<string, string>, migrationOrder: MigrationOrder)
    | Delete(i: Uuid, storeOk: bool)

  /** The state a call leads to, whether it succeeds or fails. */
  function Apply(s: State, c: Call): State {
    match c
    case UserDone(id, extra, env) => CompleteUserTask(s, id, extra, env).0
    case Fetch(worker, max, topics, duration, now, order) =>
      FetchAndLock(s, worker, max, topics, duration, now, order).0
    case ServiceDone(id, worker, extra, env) => CompleteServiceTask(s, id, worker, extra, env).0
    case ServiceFailed(id, worker, retries, message, details) =>
      FailServiceTask(s, id, worker, retries, message, details).0
    case Retry(id, retries) => RetryIncident(s, id, retries).0
    case Resolve(id, extra, env) => ResolveIncident(s, id, extra, env).0
    case Extend(id, worker, duration, now) => ExtendLock(s, id, worker, duration, now).0
    case Error(id, worker, code, env) => HandleBpmnError(s, id, worker, code, env).0
    case Start(key, variables, env) => StartInstance(s, key, variables, env).0
    case Timers(now, order, defOrder, envs) => ProcessTimers(s, now, order, defOrder, envs).0
    case Message(name, businessKey, variables, order, defOrder, envs) =>
      CorrelateMessage(s, name, businessKey, variables, order, defOrder, envs).0
    case Update(i, update) => UpdateVariables(s, i, update).0
    case Pause(i) => Suspend(s, i).0
    case Continue(i) => Resume(s, i).0
    case Move(i, target, update, cancel, env) => MoveToken(s, i, target, update, cancel, env).0
    case MigrateTo(i, key, mapping, order) => Migrate(s, i, key, mapping, order).0
    case Delete(i, storeOk) => DeleteInstance(s, i, storeOk).0
  }

  function RunCalls(s: State, calls: seq<Call>): State
    decreases |calls|
  {
    if calls == [] then s else RunCalls(Apply(s, calls[0]), calls[1..])
  }

  /** The time a call reads; calls that read none leave the clock where it was. */
  function ReadBy(c: Call, clock: Time): Time {
    match c
    case Fetch(_, _, _, _, now, _) => now
    case Extend(_, _, _, now) => now
    case Timers(now, _, _, _) => now
    case _ => clock
  }

  /** The clock the calls read does not run backwards, and starts at `clock` or later. */
  ghost predicate ClockFrom(calls: seq<Call>, clock: Time)
    decreases |calls|
  {
    calls == [] || (
      var t := ReadBy(calls[0], clock);
      clock <= t && ClockFrom(calls[1..], t))
  }

  lemma {:induction false} RunInTwo(s: State, calls: seq<Call>, k: nat)
    requires k <= |calls|
    ensures RunCalls(s, calls) == RunCalls(RunCalls(s, calls[..k]), calls[k..])
    decreases k
  {
    hide Apply;
    if k > 0 {
      RunInTwo(Apply(s, calls[0]), calls[1..], k - 1);
      assert calls[1..][..k - 1] == calls[..k][1..];
    }
  }
}
