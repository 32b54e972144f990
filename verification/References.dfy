/** Referential integrity over runs of calls. */
module References {
  import opened Values
  import opened EngineState
  import opened Operations
  import opened IntegrityProofs
  import opened Runs
  import opened Evolution
  import opened CallFrames

  /** The calls for which referential integrity is promised: all but migration, moves that leave the old
      work in place, and deletions the store refuses. */
  predicate KeepsReferences(c: Call) {
    match c
    case MigrateTo(_, _, _, _) => false
    case Move(_, _, _, cancel, _) => cancel
    case Delete(_, storeOk) => storeOk
    case _ => true
  }

  lemma CallKeepsIntegrity(s: State, c: Call)
    requires Integrity(s) && KeepsReferences(c) && (c.Timers? ==> AllSteady(s.definitions))
    ensures Integrity(Apply(s, c))
  {
    hide Integrity, FetchAndLock, CompleteUserTask, CompleteServiceTask, FailServiceTask, RetryIncident;
    hide ResolveIncident;
    hide ExtendLock, HandleBpmnError, StartInstance, CorrelateMessage, UpdateVariables, Suspend, Resume;
    hide MoveToken, DeleteInstance;
    match c
    case UserDone(id, extra, env) => CompleteUserTaskKeeps(s, id, extra, env);
    case Fetch(worker, max, topics, duration, now, order) => FetchKeeps(s, worker, max, topics, duration, now, order);
    case ServiceDone(id, worker, extra, env) => CompleteServiceTaskKeeps(s, id, worker, extra, env);
    case ServiceFailed(id, worker, retries, message, details) => ReleaseKeeps(s, id, worker, retries, message, details);
    case Retry(id, retries) => ReleaseKeeps(s, id, "", retries, None, None);
    case Resolve(id, extra, env) => ResolveIncidentKeeps(s, id, extra, env);
    case Extend(id, worker, duration, now) => ExtendLockKeeps(s, id, worker, duration, now);
    case Error(id, worker, code, env) => HandleBpmnErrorKeeps(s, id, worker, code, env);
    case Start(key, variables, env) => StartInstanceKeeps(s, key, variables, env);
    case Timers(now, order, defOrder, envs) => FireTimersKeep(s, Expired(s, now, order), defOrder, envs, 0);
    case Message(name, businessKey, variables, order, defOrder, envs) =>
      CorrelateMessageKeeps(s, name, businessKey, variables, order, defOrder, envs);
    case Update(i, update) => UpdateVariablesKeeps(s, i, update);
    case Pause(i) => SuspendResumeKeep(s, i);
    case Continue(i) => SuspendResumeKeep(s, i);
    case Move(i, target, update, cancel, env) => MoveTokenKeeps(s, i, target, update, env);
    case Delete(i, storeOk) => DeleteInstanceKeeps(s, i);
  }

  lemma MovesKeepDefinitions(a: State, b: State)
    requires Moves(a, b)
    ensures b.definitions == a.definitions
  {
    hide Sane;
    if id, mid, env :| FiresTimer(a, b, id, mid, env) {
      hide Quiet;
      QuietDefinitions(TimerCleared(a, id), mid);
      assert Reschedule(mid, a.timers[id], env).definitions == mid.definitions;
    }
  }

  lemma QuietDefinitions(a: State, b: State)
    requires Quiet(a, b)
    ensures b.definitions == a.definitions
  {}

  /** Calls leave the definitions alone. */
  lemma DefinitionsStay(s: State, calls: seq<Call>)
    requires Sane(s)
    ensures RunCalls(s, calls).definitions == s.definitions
  {
    var inv := (b: State) => b.definitions == s.definitions;
    forall a, b | Moves(a, b) && inv(a) ensures inv(b) {
      MovesKeepDefinitions(a, b);
    }
    hide Moves, RunCalls;
    RunPreserves(s, calls, inv);
  }

  lemma CallKeepsDefinitions(s: State, c: Call)
    requires Integrity(s)
    ensures Apply(s, c).definitions == s.definitions
  {
    assert Sane(s);
    hide Apply;
    DefinitionsStay(s, [c]);
    assert [c][1..] == [];
    assert RunCalls(Apply(s, c), []) == Apply(s, c);
  }

  /** On definitions in which only non-interrupting timers recur, after any run of such calls, every
      pending entry names a live instance and, unless it belongs to the whole instance, a live token of it
      that stands where the entry belongs. */
  lemma {:induction false} ReferentialIntegrity(s: State, calls: seq<Call>)
    requires Integrity(s) && AllSteady(s.definitions) && forall c <- calls :: KeepsReferences(c)
    ensures Integrity(RunCalls(s, calls)) && NoDanglingEntries(RunCalls(s, calls))
    decreases |calls|
  {
    hide Integrity, NoDanglingEntries, Apply;
    if calls == [] {
      IntegrityMeansNoDangling(s);
    } else {
      CallKeepsIntegrity(s, calls[0]);
      CallKeepsDefinitions(s, calls[0]);
      ReferentialIntegrity(Apply(s, calls[0]), calls[1..]);
    }
  }
}
