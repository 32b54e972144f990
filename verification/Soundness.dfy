/** What every engine call keeps, whatever is called and on whatever definitions. */
module Soundness {
  import opened Values
  import opened Definition
  import opened EngineState
  import opened Executor
  import opened Operations
  import opened CallFrames
  import opened Runs
  import opened Evolution
  import opened Waits
  import opened Leases
  import opened Consumption

  /** Every live instance's definition is registered. */
  ghost predicate NoOrphans(s: State) {
    forall i <- s.instances :: s.instances[i].definitionKey in s.definitions
  }

  lemma MovesKeepOrphans(a: State, b: State)
    requires NoOrphans(a) && Moves(a, b)
    ensures NoOrphans(b) && b.definitions == a.definitions
  {
    hide Sane;
    if id, mid, env :| FiresTimer(a, b, id, mid, env) {
      hide Quiet;
      QuietKeys(TimerCleared(a, id), mid);
      RescheduleKeys(mid, a.timers[id], env);
      assert NoOrphans(TimerCleared(a, id)) && NoOrphans(mid);
    }
  }

  lemma QuietKeys(a: State, b: State)
    requires Quiet(a, b)
    ensures KeysKept(a, b)
  {}

  lemma RescheduleKeys(a: State, e: Entry<TimerInfo>, env: Env)
    ensures Reschedule(a, e, env).instances == a.instances && Reschedule(a, e, env).definitions == a.definitions
  {}

  lemma EngineCallKeepsOrphans(s: State, c: Call)
    requires Sane(s) && NoOrphans(s)
    ensures var s' := Apply(s, c); Sane(s') && NoOrphans(s') && s'.definitions == s.definitions
  {
    if LeaseCall(c) {
      LeaseCallRelets(s, c);
    } else {
      var inv := (b: State) => NoOrphans(b) && b.definitions == s.definitions;
      forall a, b | Moves(a, b) && inv(a) ensures inv(b) {
        MovesKeepOrphans(a, b);
      }
      hide Apply, Sane;
      CallPreserves(s, c, inv);
    }
  }

  /** Ids are drawn before they are used; a worker and a lock expiry come together; no service task was
      consumed twice; each chain of timers has one timer at most, without a limit of its own; and every
      instance's definition is registered. */
  ghost predicate Sound(s: State) {
    Sane(s) && AllPaired(s) && ConsumedOk(s) && OneTimerPerChain(s) && Unlimited(s) && NoOrphans(s)
  }

  lemma RunKeepsOrphans(s: State, calls: seq<Call>)
    requires Sane(s) && NoOrphans(s)
    ensures Sane(RunCalls(s, calls)) && NoOrphans(RunCalls(s, calls))
  {
    var inv := b => NoOrphans(b);
    forall a, b | Moves(a, b) && inv(a) ensures inv(b) {
      MovesKeepOrphans(a, b);
    }
    RunPreserves(s, calls, inv);
  }

  lemma RunKeepsSound(s: State, calls: seq<Call>)
    requires Sound(s)
    ensures Sound(RunCalls(s, calls))
  {
    hide Sane, AllPaired, ConsumedOk, OneTimerPerChain, Unlimited, NoOrphans, RunCalls;
    LeasesStayPaired(s, calls);
    ConsumedAtMostOnce(s, calls);
    ChainsStaySingle(s, calls);
    RegisteredTimersHaveNoLimit(s, calls);
    RunKeepsOrphans(s, calls);
  }

  lemma CallKeepsSound(s: State, c: Call)
    ensures Sound(s) ==> Sound(Apply(s, c))
  {
    hide Apply, Sound;
    if Sound(s) {
      RunKeepsSound(s, [c]);
      assert [c][1..] == [];
      assert RunCalls(Apply(s, c), []) == Apply(s, c);
    }
  }

  // ---- The calls one by one ----

  lemma UserDoneKeepsSound(s: State, id: Uuid, extra: Variables, env: Env)
    ensures Sound(s) ==> Sound(CompleteUserTask(s, id, extra, env).0)
  {
    hide CompleteUserTask, Sound;
    CallKeepsSound(s, UserDone(id, extra, env));
  }

  lemma FetchKeepsSound(s: State, worker: string, max: nat, topics: seq<string>, duration: int, now: Time,
      order: seq<Uuid>)
    ensures Sound(s) ==> Sound(FetchAndLock(s, worker, max, topics, duration, now, order).0)
  {
    hide FetchAndLock, Sound;
    CallKeepsSound(s, Fetch(worker, max, topics, duration, now, order));
  }

  lemma ServiceDoneKeepsSound(s: State, id: Uuid, worker: string, extra: Variables, env: Env)
    ensures Sound(s) ==> Sound(CompleteServiceTask(s, id, worker, extra, env).0)
  {
    hide CompleteServiceTask, Sound;
    CallKeepsSound(s, ServiceDone(id, worker, extra, env));
  }

  lemma FailureKeepsSound(s: State, id: Uuid, worker: string, retries: Option<int>, message: Option<string>,
      details: Option<string>)
    ensures Sound(s) ==> Sound(FailServiceTask(s, id, worker, retries, message, details).0)
  {
    hide FailServiceTask, Sound;
    CallKeepsSound(s, ServiceFailed(id, worker, retries, message, details));
  }

  lemma RetryKeepsSound(s: State, id: Uuid, retries: Option<int>)
    ensures Sound(s) ==> Sound(RetryIncident(s, id, retries).0)
  {
    hide RetryIncident, Sound;
    CallKeepsSound(s, Retry(id, retries));
  }

  lemma ResolutionKeepsSound(s: State, id: Uuid, extra: Variables, env: Env)
    ensures Sound(s) ==> Sound(ResolveIncident(s, id, extra, env).0)
  {
    hide ResolveIncident, Sound;
    CallKeepsSound(s, Resolve(id, extra, env));
  }

  lemma ExtensionKeepsSound(s: State, id: Uuid, worker: string, duration: int, now: Time)
    ensures Sound(s) ==> Sound(ExtendLock(s, id, worker, duration, now).0)
  {
    hide ExtendLock, Sound;
    CallKeepsSound(s, Extend(id, worker, duration, now));
  }

  lemma ErrorKeepsSound(s: State, id: Uuid, worker: string, code: string, env: Env)
    ensures Sound(s) ==> Sound(HandleBpmnError(s, id, worker, code, env).0)
  {
    hide HandleBpmnError, Sound;
    CallKeepsSound(s, Error(id, worker, code, env));
  }

  lemma StartKeepsSound(s: State, key: Uuid, variables: Variables, env: Env)
    ensures Sound(s) ==> Sound(StartInstance(s, key, variables, env).0)
  {
    hide StartInstance, Sound;
    CallKeepsSound(s, Start(key, variables, env));
  }

  lemma TimersKeepsSound(s: State, now: Time, order: seq<Uuid>, defOrder: seq<Uuid>, envs: nat -> Env)
    ensures Sound(s) ==> Sound(ProcessTimers(s, now, order, defOrder, envs).0)
  {
    hide ProcessTimers, Sound;
    CallKeepsSound(s, Timers(now, order, defOrder, envs));
  }

  lemma MessageKeepsSound(s: State, name: string, businessKey: Option<string>, variables: Variables,
                     order: seq<Uuid>, defOrder: seq<Uuid>, envs: nat -> Env)
    ensures Sound(s) ==> Sound(CorrelateMessage(s, name, businessKey, variables, order, defOrder, envs).0)
  {
    hide CorrelateMessage, Sound;
    CallKeepsSound(s, Message(name, businessKey, variables, order, defOrder, envs));
  }

  lemma UpdateKeepsSound(s: State, i: Uuid, update: Variables)
    ensures Sound(s) ==> Sound(UpdateVariables(s, i, update).0)
  {
    hide UpdateVariables, Sound;
    CallKeepsSound(s, Update(i, update));
  }

  lemma SuspensionKeepsSound(s: State, i: Uuid)
    ensures Sound(s) ==> Sound(Suspend(s, i).0)
  {
    hide Suspend, Sound;
    CallKeepsSound(s, Pause(i));
  }

  lemma ResumptionKeepsSound(s: State, i: Uuid)
    ensures Sound(s) ==> Sound(Resume(s, i).0)
  {
    hide Resume, Sound;
    CallKeepsSound(s, Runs.Call.Continue(i));
  }

  lemma MoveKeepsSound(s: State, i: Uuid, target: string, update: Variables, cancel: bool, env: Env)
    ensures Sound(s) ==> Sound(MoveToken(s, i, target, update, cancel, env).0)
  {
    hide MoveToken, Sound;
    CallKeepsSound(s, Move(i, target, update, cancel, env));
  }

  lemma MigrationKeepsSound(s: State, i: Uuid, key: Uuid, mapping: map<string, string>, order: MigrationOrder)
    ensures Sound(s) ==> Sound(Migrate(s, i, key, mapping, order).0)
  {
    hide Migrate, Sound;
    CallKeepsSound(s, MigrateTo(i, key, mapping, order));
  }

  lemma DeletionKeepsSound(s: State, i: Uuid, storeOk: bool)
    ensures Sound(s) ==> Sound(DeleteInstance(s, i, storeOk).0)
  {
    hide DeleteInstance, Sound;
    CallKeepsSound(s, Delete(i, storeOk));
  }
}
