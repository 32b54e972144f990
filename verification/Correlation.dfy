/** Correlating a message (engine-core/src/engine/message_processor.rs): whom it resumes, whom it starts,
    and what the call answers. */
module Correlation {
  import opened Values
  import opened Definition
  import opened EngineState
  import opened Executor
  import opened ExecutorFrame
  import opened Operations
  import opened CallFrames
  import opened Arrivals
  import opened Evolution
  import opened Updates

  // ---- Whom a message is for ----

  /** Catch `id` waits for this message: it has its name, and when a business key is given it is the one of
      the catch's instance. */
  ghost predicate WaitsFor(s: State, id: Uuid, name: string, businessKey: Option<string>) {
    && id in s.catches && s.catches[id].data.messageName == name && s.catches[id].instanceId in s.instances
    && (businessKey.Some? ==> s.instances[s.catches[id].instanceId].businessKey == businessKey.value)
  }

  lemma {:induction false} MatchingWait(s: State, name: string, businessKey: Option<string>, order: seq<Uuid>)
    ensures forall id :: id in MatchingCatches(s, name, businessKey, order) <==>
                         id in order && WaitsFor(s, id, name, businessKey)
    decreases |order|
  {
    if order != [] {
      MatchingWait(s, name, businessKey, order[1..]);
      assert forall id :: id in order <==> id == order[0] || id in order[1..];
    }
  }

  /** Instances of the definition start when the message comes: their start event is a message start event
      of that name. */
  ghost predicate StartedByMessage(d: ProcessDefinition, name: string) {
    exists k: nat :: FirstStart(d, d.order, k) && d.nodes[d.order[k]].MessageStartEvent?
      && d.nodes[d.order[k]].messageName == name
  }

  lemma StartsOnIs(d: ProcessDefinition, name: string)
    ensures StartsOn(d, name) <==> StartedByMessage(d, name)
  {
    StartsAtFirst(d, d.order);
    if StartsOn(d, name) {
      var k := FirstStartIndex(d, d.order);
    }
  }

  lemma {:induction false} FirstStartIndex(d: ProcessDefinition, order: seq<string>) returns (k: nat)
    requires exists n :: n in order && n in d.nodes && Starts(d.nodes[n])
    ensures FirstStart(d, order, k)
    decreases |order|
  {
    if order[0] in d.nodes && Starts(d.nodes[order[0]]) {
      k := 0;
    } else {
      assert forall n :: n in order <==> n == order[0] || n in order[1..];
      var j := FirstStartIndex(d, order[1..]);
      k := j + 1;
      assert order[k] == order[1..][j] && forall l :: 0 < l < k ==> order[l] == order[1..][l - 1];
    }
  }

  lemma {:induction false} StartedAre(defs: Definitions, name: string, order: seq<Uuid>)
    ensures forall key :: key in StartedBy(defs, name, order) <==>
                          key in order && key in defs && StartedByMessage(defs[key], name)
    decreases |order|
  {
    if order != [] {
      StartedAre(defs, name, order[1..]);
      if order[0] in defs {
        StartsOnIs(defs[order[0]], name);
      }
      hide StartsOn, StartedByMessage;
      assert forall key :: key in order <==> key == order[0] || key in order[1..];
    }
  }

  // ---- What the call does ----

  /** These catches fired next, one after the other. */
  ghost predicate CaughtNext(before: seq<Firing>, after: seq<Firing>, ids: seq<Uuid>) {
    && before <= after && |before| + |ids| <= |after|
    && forall p :: |before| <= p < |before| + |ids| ==> after[p] == CatchFired(ids[p - |before|])
  }

  lemma CaughtFirst(before: seq<Firing>, after: seq<Firing>, ids: seq<Uuid>)
    requires ids != [] && CaughtNext(before + [CatchFired(ids[0])], after, ids[1..])
    ensures CaughtNext(before, after, ids)
  {
    var more := before + [CatchFired(ids[0])];
    forall p | |before| <= p < |before| + |ids| ensures after[p] == CatchFired(ids[p - |before|]) {
      if p == |before| {
        assert after[p] == more[p];
      } else {
        assert ids[1..][p - |more|] == ids[p - |before|];
      }
    }
  }

  lemma FireCatchTakes(s: State, id: Uuid, variables: Variables, defOrder: seq<Uuid>, env: Env)
    requires Sane(s)
    ensures var (s', r) := FireCatch(s, id, variables, defOrder, env);
      && Sane(s') && s'.definitions == s.definitions && s.nextId <= s'.nextId
      && s'.fired == (if id in s.catches then s.fired + [CatchFired(id)] else s.fired)
      && (id !in s.catches ==> r.Failed?)
  {
    if id in s.catches {
      FireCatchSteps(s, id, variables, defOrder, env);
      hide FireCatch, Sane;
      StepsParts(CatchCleared(s, id), FireCatch(s, id, variables, defOrder, env).0, s.catches[id].instanceId);
    }
  }

  /** When a call resumes all these catches without an error, it resumes each of them. */
  lemma {:induction false} AllCaught(s: State, ids: seq<Uuid>, variables: Variables, defOrder: seq<Uuid>,
      envs: nat -> Env, k: nat)
    requires Sane(s)
    ensures var (s', r) := FireCatches(s, ids, variables, defOrder, envs, k);
      && Sane(s') && s'.definitions == s.definitions && s.nextId <= s'.nextId
      && (r.Done? ==> CaughtNext(s.fired, s'.fired, ids))
    decreases |ids|
  {
    if ids != [] {
      FireCatchTakes(s, ids[0], variables, defOrder, envs(k));
      hide FireCatch, Sane, CaughtNext;
      var (s1, r) := FireCatch(s, ids[0], variables, defOrder, envs(k));
      if r.Done? {
        AllCaught(s1, ids[1..], variables, defOrder, envs, k + 1);
        var (s', rest) := FireCatches(s1, ids[1..], variables, defOrder, envs, k + 1);
        if rest.Done? {
          CaughtFirst(s.fired, s'.fired, ids);
        }
      }
    }
  }

  lemma {:induction false} InstancesAre(m: Catches, ids: seq<Uuid>)
    requires forall id <- ids :: id in m
    ensures |InstancesOf(m, ids)| == |ids| && forall j :: 0 <= j < |ids| ==>
      InstancesOf(m, ids)[j] == m[ids[j]].instanceId
    decreases |ids|
  {
    if ids != [] {
      assert ids[0] in ids && forall id <- ids[1..] :: id in ids;
      InstancesAre(m, ids[1..]);
    }
  }

  /** An instance that was started runs on its definition, with the business key of the message if it has
      one. */
  ghost predicate Began(s: State, i: Uuid, key: Uuid, businessKey: Option<string>) {
    && i in s.instances && s.instances[i].definitionKey == key
    && (businessKey.Some? ==> s.instances[i].businessKey == businessKey.value)
  }

  lemma StartedBegins(s: State, key: Uuid, variables: Variables, env: Env)
    requires Sane(s)
    ensures var (s', r) := StartInstance(s, key, variables, env);
      && Sane(s') && s.nextId <= s'.nextId && s'.definitions == s.definitions
      && (r.Ok? ==> r.value == s.nextId && Began(s', r.value, key, None) && s.nextId < s'.nextId)
      && (forall i: Uuid, k: Uuid, b :: i < s.nextId && Began(s, i, k, b) ==> Began(s', i, k, b))
  {
    StartInstanceWithin(s, key, variables, env);
    if StartInstance(s, key, variables, env).1.Ok? {
      var start := StartEventOf(s.definitions[key], s.definitions[key].order).value;
      var s1, tok := Started(s, key, start, variables, env),
        Token(s.nextId + 1, start, variables - {"business_key"}, false);
      StartedHas(s, key, start, variables, env);
      hide Started, RunBatch, Sane, StartEventOf, RunsOn;
      BatchKeepsIdentity(s1, s.nextId, [tok], env.steps, env, 0);
    }
  }

  lemma StartedHas(s: State, key: Uuid, start: string, variables: Variables, env: Env)
    requires key in s.definitions
    ensures var s1 := Started(s, key, start, variables, env);
      s.nextId in s1.instances && s1.instances[s.nextId].definitionKey == key
  {}

  lemma KeyedBegins(s: State, i: Uuid, key: Uuid, businessKey: Option<string>)
    requires Sane(s) && Began(s, i, key, None)
    ensures var s' := WithBusinessKey(s, i, businessKey);
      && Sane(s') && s'.nextId == s.nextId && s'.definitions == s.definitions && s'.fired == s.fired
      && Began(s', i, key, businessKey)
      && (forall j: Uuid, k: Uuid, b :: j != i && Began(s, j, k, b) ==> Began(s', j, k, b))
  {}

  lemma {:induction false} AllBegin(s: State, keys: seq<Uuid>, variables: Variables, businessKey: Option<string>,
      envs: nat -> Env, k: nat)
    requires Sane(s)
    ensures var (s', r) := StartEach(s, keys, variables, businessKey, envs, k);
      && (forall i: Uuid, key: Uuid, b :: i < s.nextId && Began(s, i, key, b) ==> Began(s', i, key, b))
      && (r.Ok? ==> |r.value| == |keys| && forall j :: 0 <= j < |keys| ==>
            s.nextId <= r.value[j] && Began(s', r.value[j], keys[j], businessKey))
    decreases |keys|
  {
    if keys != [] {
      var (s1, r) := StartInstance(s, keys[0], variables, envs(k));
      StartedBegins(s, keys[0], variables, envs(k));
      hide StartInstance, Sane, Began, WithBusinessKey;
      if r.Ok? {
        var s2 := WithBusinessKey(s1, r.value, businessKey);
        KeyedBegins(s1, r.value, keys[0], businessKey);
        AllBegin(s2, keys[1..], variables, businessKey, envs, k + 1);
      }
    }
  }

  /** The call answers with the instances of these catches, which fired, and then with new instances of
      these definitions. */
  ghost predicate Answered(s: State, s': State, answer: seq<Uuid>, ids: seq<Uuid>, keys: seq<Uuid>,
      businessKey: Option<string>)
  {
    && |answer| == |ids| + |keys| && CaughtNext(s.fired, s'.fired, ids)
    && (forall j :: 0 <= j < |ids| ==> ids[j] in s.catches && answer[j] == s.catches[ids[j]].instanceId)
    && (forall j :: 0 <= j < |keys| ==>
          s.nextId <= answer[|ids| + j] && Began(s', answer[|ids| + j], keys[j], businessKey))
  }

  lemma BothAnswer(s: State, s1: State, s': State, ids: seq<Uuid>, keys: seq<Uuid>, businessKey: Option<string>,
      begun: seq<Uuid>)
    requires (forall id <- ids :: id in s.catches) && CaughtNext(s.fired, s1.fired, ids) && s.nextId <= s1.nextId
    requires s'.fired == s1.fired && |begun| == |keys|
    requires forall j :: 0 <= j < |keys| ==> s1.nextId <= begun[j] && Began(s', begun[j], keys[j], businessKey)
    ensures Answered(s, s', InstancesOf(s.catches, ids) + begun, ids, keys, businessKey)
  {
    InstancesAre(s.catches, ids);
    hide InstancesOf, Began, CaughtNext;
    var reached := InstancesOf(s.catches, ids);
    forall j | 0 <= j < |ids| ensures ids[j] in s.catches && (reached + begun)[j] == s.catches[ids[j]].instanceId {
      assert ids[j] in ids;
    }
    forall j | 0 <= j < |keys|
      ensures s.nextId <= (reached + begun)[|ids| + j] && Began(s', (reached + begun)[|ids| + j], keys[j], businessKey)
    {
      assert (reached + begun)[|ids| + j] == begun[j];
    }
  }

  lemma ResumesAndStarts(s: State, name: string, businessKey: Option<string>, variables: Variables, order: seq<Uuid>,
      defOrder: seq<Uuid>, envs: nat -> Env)
    requires Sane(s)
    ensures var (s', r) := CorrelateMessage(s, name, businessKey, variables, order, defOrder, envs);
      r.Ok? ==> Answered(s, s', r.value, MatchingCatches(s, name, businessKey, order),
                         StartedBy(s.definitions, name, defOrder), businessKey)
  {
    var ids, keys := MatchingCatches(s, name, businessKey, order), StartedBy(s.definitions, name, defOrder);
    MatchingWait(s, name, businessKey, order);
    assert forall id <- ids :: id in s.catches;
    hide MatchingCatches, StartedBy, FireCatches, StartEach, Sane, Began, CaughtNext, Answered, WaitsFor;
    AllCaught(s, ids, variables, defOrder, envs, 0);
    var (s1, r) := FireCatches(s, ids, variables, defOrder, envs, 0);
    if r.Done? {
      AllBegin(s1, keys, variables, businessKey, envs, |ids|);
      StartsKeepFired(s1, keys, variables, businessKey, envs, |ids|);
      var (s', begun) := StartEach(s1, keys, variables, businessKey, envs, |ids|);
      if begun.Ok? {
        BothAnswer(s, s1, s', ids, keys, businessKey, begun.value);
      }
    }
  }

  /** A message that is correlated without an error resumes every catch that waits for it, in turn, and
      starts an instance of every definition it starts; the call answers with the instances of those
      catches and then the new ones, which have the message's business key. */
  lemma CorrelationReaches(s: State, name: string, businessKey: Option<string>, variables: Variables,
                           order: seq<Uuid>, defOrder: seq<Uuid>, envs: nat -> Env)
      returns (ids: seq<Uuid>, keys: seq<Uuid>)
    requires Sane(s) && Enumerates(order, s.catches.Keys) && Enumerates(defOrder, s.definitions.Keys)
    ensures forall id :: id in ids <==> WaitsFor(s, id, name, businessKey)
    ensures forall key :: key in keys <==> key in s.definitions && StartedByMessage(s.definitions[key], name)
    ensures var (s', r) := CorrelateMessage(s, name, businessKey, variables, order, defOrder, envs);
      r.Ok? ==> Answered(s, s', r.value, ids, keys, businessKey)
  {
    ids := MatchingCatches(s, name, businessKey, order);
    keys := StartedBy(s.definitions, name, defOrder);
    MatchingWait(s, name, businessKey, order);
    StartedAre(s.definitions, name, defOrder);
    assert forall id <- s.catches :: id in s.catches.Keys;
    assert forall key <- s.definitions :: key in s.definitions.Keys;
    hide MatchingCatches, StartedBy, StartedByMessage, CorrelateMessage, Sane, Answered;
    ResumesAndStarts(s, name, businessKey, variables, order, defOrder, envs);
  }

  lemma {:induction false} StartsKeepFired(s: State, keys: seq<Uuid>, variables: Variables, businessKey: Option<string>,
      envs: nat -> Env, k: nat)
    requires Sane(s)
    ensures StartEach(s, keys, variables, businessKey, envs, k).0.fired == s.fired
    decreases |keys|
  {
    if keys != [] {
      var (s1, r) := StartInstance(s, keys[0], variables, envs(k));
      StartInstanceWithin(s, keys[0], variables, envs(k));
      hide StartInstance, Sane;
      if r.Ok? {
        var s2 := WithBusinessKey(s1, r.value, businessKey);
        WithBusinessKeyWithin(s1, r.value, businessKey);
        StartsKeepFired(s2, keys[1..], variables, businessKey, envs, k + 1);
      }
    }
  }
}
