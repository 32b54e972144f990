/** What a user task's completion leaves behind when its end script fails
    (engine-core/src/engine/user_task.rs). */
module Rollback {
  import opened Values
  import opened EngineState
  import opened Executor
  import opened Operations
  import opened IntegrityProofs

  /** The end script of the completed task fails. */
  ghost predicate ScriptFails(s: State, id: Uuid, extra: Variables, env: Env) {
    && id in s.userTasks && HasToken(s, s.userTasks[id].instanceId, s.userTasks[id].tokenId)
    && !IsSuspended(s, s.userTasks[id].instanceId)
    && env.endScript(MergedToken(s, s.userTasks[id].instanceId, s.userTasks[id].tokenId, extra).variables).None?
  }

  /** Boundary timers and message catches of the task's node that are pending. */
  ghost predicate BoundaryPending(s: State, i: Uuid, node: string)
    requires i in s.instances && s.instances[i].definitionKey in s.definitions
  {
    || (exists id <- s.timers ::
       s.timers[id].instanceId == i && s.timers[id].nodeId in BoundaryTimersOf(DefOf(s, i), node))
    || (exists id <- s.catches ::
       s.catches[id].instanceId == i && s.catches[id].nodeId in BoundaryMessagesOf(DefOf(s, i), node))
  }

  /** The state after the rollback: the task and the token are back, the token with the new variables;
      the instance shows the task and waits for it; its boundary events stay cancelled. */
  function RolledBack(s: State, id: Uuid, extra: Variables): State
    requires id in s.userTasks && s.userTasks[id].instanceId in s.instances
    requires s.userTasks[id].tokenId in s.instances[s.userTasks[id].instanceId].tokens
  {
    var task := s.userTasks[id];
    var i, t := task.instanceId, task.tokenId;
    var inst := s.instances[i];
    CancelBoundary(s, i, task.nodeId).WithInstance(i, inst.(
      tokens := inst.tokens[t := MergedToken(s, i, t, extra)], state := WaitingOnUserTask(id),
        currentNode := task.nodeId))
  }

  lemma CancelWithoutTask(s: State, users: UserTasks, i: Uuid, t: Uuid, node: string)
    requires i in s.instances
    ensures CancelBoundary(WithoutToken(s.(userTasks := users), i, t), i, node)
         == WithoutToken(CancelBoundary(s, i, node).(userTasks := users), i, t)
  {}

  lemma LeaveTaskIs(s: State, users: UserTasks, i: Uuid, t: Uuid, node: string)
    requires i in s.instances
    ensures LeaveTask(s.(userTasks := users), i, t, node)
         == CancelBoundary(s, i, node).(userTasks := users)
            .WithInstance(i, s.instances[i].(tokens := s.instances[i].tokens - {t}).Resumed())
  {
    CancelWithoutTask(s, users, i, t, node);
    hide CancelBoundary;
    var c := CancelBoundary(s, i, node).(userTasks := users);
    var inst := s.instances[i].(tokens := s.instances[i].tokens - {t});
    assert c.WithInstance(i, inst).WithInstance(i, inst.Resumed()) == c.WithInstance(i, inst.Resumed());
  }

  lemma RestoredIs(s: State, id: Uuid, extra: Variables)
    requires id in s.userTasks && HasToken(s, s.userTasks[id].instanceId, s.userTasks[id].tokenId)
    requires s.instances[s.userTasks[id].instanceId].tokens[s.userTasks[id].tokenId].id == s.userTasks[id].tokenId
    ensures var task := s.userTasks[id]; var i, t := task.instanceId, task.tokenId;
      var s1 := s.(userTasks := s.userTasks - {id});
      RestoreUserTask(Shown(LeaveTask(s1, i, t, task.nodeId), i, task.nodeId), id, task, MergedToken(s1, i, t, extra))
        == RolledBack(s, id, extra)
  {
    var task := s.userTasks[id];
    var i, t := task.instanceId, task.tokenId;
    LeaveTaskIs(s, s.userTasks - {id}, i, t, task.nodeId);
    var tok := MergedToken(s, i, t, extra);
    assert MergedToken(s.(userTasks := s.userTasks - {id}), i, t, extra) == tok && tok.id == t;
    hide CancelBoundary, MergedToken, LeaveTask;
    assert (s.userTasks - {id})[id := task] == s.userTasks;
    assert (s.instances[i].tokens - {t})[t := tok] == s.instances[i].tokens[t := tok];
  }

  lemma RollbackLeaves(s: State, id: Uuid, extra: Variables, env: Env)
    requires Integrity(s) && ScriptFails(s, id, extra, env)
    ensures CompleteUserTask(s, id, extra, env) == (RolledBack(s, id, extra), Failed(ScriptError))
  {
    UserTaskToken(s, id);
    hide Integrity, LeaveTask, RestoreUserTask, RolledBack, Unreferenced, OnActivity;
    RestoredIs(s, id, extra);
  }

  lemma CancelsNothingIff(s: State, i: Uuid, node: string)
    requires i in s.instances && s.instances[i].definitionKey in s.definitions
    ensures CancelBoundary(s, i, node) == s <==> !BoundaryPending(s, i, node)
  {
    var d := DefOf(s, i);
    var r := CancelBoundary(s, i, node);
    if !BoundaryPending(s, i, node) {
      assert r.timers == s.timers && r.catches == s.catches;
    } else if id :| id in s.timers && s.timers[id].instanceId == i && s.timers[id].nodeId in BoundaryTimersOf(d, node) {
      assert id !in r.timers;
    } else {
      var id :| id in s.catches && s.catches[id].instanceId == i && s.catches[id].nodeId in BoundaryMessagesOf(d, node);
      assert id !in r.catches;
    }
  }

  /** Nothing but the boundary events could differ. */
  ghost predicate AsBefore(s: State, id: Uuid, extra: Variables)
    requires id in s.userTasks && s.userTasks[id].instanceId in s.instances
    requires s.userTasks[id].tokenId in s.instances[s.userTasks[id].instanceId].tokens
  {
    var task := s.userTasks[id];
    var inst := s.instances[task.instanceId];
    && inst.tokens[task.tokenId].variables + extra == inst.tokens[task.tokenId].variables
    && inst.state == WaitingOnUserTask(id) && inst.currentNode == task.nodeId
  }

  lemma InstanceAsBefore(s: State, id: Uuid, extra: Variables)
    requires id in s.userTasks && HasToken(s, s.userTasks[id].instanceId, s.userTasks[id].tokenId)
    ensures var i := s.userTasks[id].instanceId;
      RolledBack(s, id, extra).instances[i] == s.instances[i] <==> AsBefore(s, id, extra)
  {
    var task := s.userTasks[id];
    var i, t := task.instanceId, task.tokenId;
    var inst, tok := s.instances[i], MergedToken(s, i, t, extra);
    assert inst.tokens[t := tok] == inst.tokens <==> tok == inst.tokens[t] by {
      assert inst.tokens[t := tok][t] == tok;
    }
    hide CancelBoundary;
  }

  lemma RolledBackIff(s: State, id: Uuid, extra: Variables)
    requires id in s.userTasks && HasToken(s, s.userTasks[id].instanceId, s.userTasks[id].tokenId)
    ensures var i := s.userTasks[id].instanceId;
      RolledBack(s, id, extra) == s
      <==> (RolledBack(s, id, extra).instances[i] == s.instances[i]
        && CancelBoundary(s, i, s.userTasks[id].nodeId) == s)
  {
    hide CancelBoundary, MergedToken;
    var i := s.userTasks[id].instanceId;
    assert s.instances[i := s.instances[i]] == s.instances;
  }

  /** The rollback puts everything back as it was exactly when the call brought no new values, the
      instance showed this task and waited for it alone, and no boundary event of the task was pending. */
  lemma RollbackRestoresIff(s: State, id: Uuid, extra: Variables, env: Env)
    requires Integrity(s) && ScriptFails(s, id, extra, env)
    ensures var i := s.userTasks[id].instanceId;
      s.instances[i].definitionKey in s.definitions &&
      (CompleteUserTask(s, id, extra, env).0 == s <==>
        AsBefore(s, id, extra) && !BoundaryPending(s, i, s.userTasks[id].nodeId))
  {
    var i := s.userTasks[id].instanceId;
    UserTaskToken(s, id);
    RollbackLeaves(s, id, extra, env);
    hide *;
    InstanceAsBefore(s, id, extra);
    RolledBackIff(s, id, extra);
    CancelsNothingIff(s, i, s.userTasks[id].nodeId);
  }
}
