/** How long a chain of recurring timers can get (engine-core/src/engine/timer_processor.rs). */
module Chains {
  import opened Values
  import opened Definition
  import opened EngineState
  import opened Executor
  import opened Operations
  import opened Parking
  import opened Arrivals
  import opened Runs
  import opened Waits

  /** A boundary timer that does not interrupt is pending, its token waits, and its way leads to a node
      where a token rests. */
  ghost predicate Ticking(s: State, id: Uuid, next: string) {
    && TimerLeadsTo(s, id, next) && s.timers[id].tokenId < s.nextId && !IsSuspended(s, s.timers[id].instanceId)
    && NonInterruptingTimer(DefOf(s, s.timers[id].instanceId), s.timers[id].nodeId)
    && RestsAt(DefOf(s, s.timers[id].instanceId), next)
  }

  /** What a firing at time `at` finds: the copy rests at `next` with the variables it has. */
  function RestingEnv(el: BpmnElement, variables: Variables, at: Time): Env {
    Env(at, (_, now) => Some(now + 1), v => Some(v),
        [Step(variables, variables, "", match RestAction(el) case Some(a) => a case None => Terminate)])
  }

  /** What a firing of this timer finds at time `at`. */
  function TickEnv(s: State, id: Uuid, next: string, at: Time): Env
    requires id in s.timers && s.timers[id].instanceId in s.instances
    requires s.timers[id].tokenId in s.instances[s.timers[id].instanceId].tokens
    requires s.instances[s.timers[id].instanceId].definitionKey in s.definitions
    requires next in s.definitions[s.instances[s.timers[id].instanceId].definitionKey].nodes
  {
    var e := s.timers[id];
    var inst := s.instances[e.instanceId];
    RestingEnv(s.definitions[inst.definitionKey].nodes[next], inst.tokens[e.tokenId].variables, at)
  }

  /** The same for every firing. */
  function Always(env: Env): nat -> Env {
    _ => env
  }

  /** The call of `process_timers` at time `at` that comes to this timer. */
  function Tick(s: State, id: Uuid, next: string, at: Time): Call
    requires id in s.timers && s.timers[id].instanceId in s.instances
    requires s.timers[id].tokenId in s.instances[s.timers[id].instanceId].tokens
    requires s.instances[s.timers[id].instanceId].definitionKey in s.definitions
    requires next in s.definitions[s.instances[s.timers[id].instanceId].definitionKey].nodes
  {
    Timers(at, [id], [], Always(TickEnv(s, id, next, at)))
  }

  /** The timer was scheduled again at time `at`, for no earlier time, with the same definition and no limit. */
  ghost predicate Follows(e: Entry<TimerInfo>, e': Entry<TimerInfo>, at: Time) {
    && e' == e.(id := e'.id, data := e.data.(expiresAt := e'.data.expiresAt, remaining := None))
    && at <= e'.data.expiresAt
  }

  /** The state between the batch and the rescheduling: the token of the fired timer waits on. */
  ghost predicate WaitsOn(s: State, mid: State, i: Uuid, t: Uuid) {
    && HasToken(s, i, t) && HasToken(mid, i, t) && mid.instances[i].tokens[t] == s.instances[i].tokens[t]
    && mid.definitions == s.definitions && mid.instances[i].definitionKey == s.instances[i].definitionKey
    && !IsSuspended(mid, i) && Sane(mid) && s.nextId <= mid.nextId
  }

  lemma RescheduledTicks(s: State, mid: State, id: Uuid, next: string, at: Time, env: Env)
    requires Ticking(s, id, next) && WaitsOn(s, mid, s.timers[id].instanceId, s.timers[id].tokenId)
    requires Repeats(s.timers[id], env) && s.timers[id].data.remaining.None?
    requires env == TickEnv(s, id, next, at)
    ensures var s' := Reschedule(mid, s.timers[id], env);
      Ticking(s', mid.nextId, next) && Follows(s.timers[id], s'.timers[mid.nextId], at)
  {
    hide ResolveNext;
    var e := s.timers[id];
    RescheduleParts(mid, e, env);
    var s' := Reschedule(mid, e, env);
    var e' := s'.timers[mid.nextId];
    assert e' == e.(id := mid.nextId, data := e.data.(expiresAt := e'.data.expiresAt, remaining := None));
    assert s' == mid.(timers := s'.timers, nextId := mid.nextId + 1);
    hide Sane, Reschedule;
  }

  lemma TickingStep(s: State, id: Uuid, next: string, at: Time, env: Env)
    requires Ticking(s, id, next)
    requires env == TickEnv(s, id, next, at)
    ensures var i, t := s.timers[id].instanceId, s.timers[id].tokenId;
      && TimerLeadsTo(s, id, next) && HasToken(s, i, t) && t < s.nextId && s.instances[i].definitionKey in s.definitions
      && NonInterruptingTimer(DefOf(s, i), s.timers[id].nodeId)
      && |env.steps| == 1 && Rests(DefOf(s, i), s.instances[i].tokens[t].(id := s.nextId, currentNode := next),
         env.steps[0])
  {
    hide ResolveNext, Sane;
  }

  lemma BatchWaitsOn(s: State, id: Uuid, next: string, at: Time, env: Env)
    requires Ticking(s, id, next)
    requires env == TickEnv(s, id, next, at)
    ensures var (mid, r) := ResumeTimer(s, id, [], env);
      && r == Done && WaitsOn(s, mid, s.timers[id].instanceId, s.timers[id].tokenId)
      && FireTimer(s, id, [], env) == (Reschedule(mid, s.timers[id], env), Done)
  {
    var e := s.timers[id];
    var i, t := e.instanceId, e.tokenId;
    TickingStep(s, id, next, at, env);
    CopyTaken(s, id, next, env);
    var h := NonInterrupting(s, i, t, Running, s.instances[i].tokens[t].variables, next);
    hide ResumeTimer, FireTimer, TakenOn, HasWork, OnlyFor, Reschedule, Sane, Ticking, TickEnv, TimerLeadsTo;
    hide Rests, NonInterruptingTimer;
    hide RestedAfter, HandedOver;
    HandedOverRests(s, ResumeTimer(s, id, [], env), h, env);
    var mid := ResumeTimer(s, id, [], env).0;
    RestedParts(s, mid, h, DefOf(s, i).nodes[next], env.steps[0].synced);
    OtherTokenStays(s.instances[i].tokens, mid.instances[i].tokens, t, s.nextId,
      s.instances[i].tokens[t].(id := s.nextId), h.tok);
    WaitsOnWhen(s, mid, i, t);
  }

  lemma OtherTokenStays(tokens: map<Uuid, Token>, after: map<Uuid, Token>, t: Uuid, copy: Uuid, a: Token, b: Token)
    requires t in tokens && t != copy
    requires after == tokens[copy := a] - {copy} || after == tokens[copy := a][copy := b]
    ensures t in after && after[t] == tokens[t]
  {}

  lemma WaitsOnWhen(s: State, mid: State, i: Uuid, t: Uuid)
    requires HasToken(s, i, t) && HasToken(mid, i, t) && mid.instances[i].tokens[t] == s.instances[i].tokens[t]
      && Sane(mid)
    requires mid.definitions == s.definitions && mid.instances[i].definitionKey == s.instances[i].definitionKey
    requires !mid.instances[i].state.Suspended? && s.nextId <= mid.nextId
    ensures WaitsOn(s, mid, i, t)
  {}

  /** The copy is what the batch of a timer that does not interrupt takes on. */
  lemma CopyTaken(s: State, id: Uuid, next: string, env: Env)
    requires TimerLeadsTo(s, id, next) && NonInterruptingTimer(DefOf(s, s.timers[id].instanceId), s.timers[id].nodeId)
    ensures var i, t := s.timers[id].instanceId, s.timers[id].tokenId; var (mid, r) := ResumeTimer(s, id, [], env);
      && TakenOn(s, (mid, r), NonInterrupting(s, i, t, Running, s.instances[i].tokens[t].variables, next), env)
      && (r.Done? ==> FireTimer(s, id, [], env) == (Reschedule(mid, s.timers[id], env), Done))
  {
    hide ResumeTimer, FireTimer, TakenOn, LeadsTo, Interrupting, NonInterrupting, Reschedule, Sane;
    TimerHandsOver(s, id, next, [], env);
  }

  /** A due timer without a limit that may repeat fires and is scheduled again, and its token waits on. */
  lemma FiringTicksOn(s: State, id: Uuid, next: string, at: Time, env: Env)
    requires Ticking(s, id, next) && MayRepeat(s.timers[id].data) && s.timers[id].data.remaining.None?
    requires env == TickEnv(s, id, next, at)
    ensures var (s', r) := FireTimer(s, id, [], env);
      && r == Done && s'.fired == s.fired + [TimerFired(id, s.timers[id].data.origin)]
      && exists id' :: Ticking(s', id', next) && Follows(s.timers[id], s'.timers[id'], at)
  {
    TickingSane(s, id, next);
    FireTimerParts(s, id, [], env, 0);
    BatchWaitsOn(s, id, next, at, env);
    assert Repeats(s.timers[id], env);
    hide FireTimer, ResumeTimer, WaitsOn, Repeats, Ticking, Reschedule;
    var mid := ResumeTimer(s, id, [], env).0;
    RescheduledTicks(s, mid, id, next, at, env);
    TickingHas(Reschedule(mid, s.timers[id], env), mid.nextId, next);
  }

  lemma TickingHas(s: State, id: Uuid, next: string)
    requires Ticking(s, id, next)
    ensures id in s.timers
  {}

  lemma FiresAlone(s: State, id: Uuid, at: Time, env: Env)
    requires id in s.timers && s.timers[id].data.expiresAt <= at && !IsSuspended(s, s.timers[id].instanceId)
      && FireTimer(s, id, [], env).1 == Done
    ensures ProcessTimers(s, at, [id], [], Always(env)).0 == FireTimer(s, id, [], env).0
  {
    var envs := Always(env);
    assert [id][1..] == [] && [id][0] == id && Expired(s, at, []) == [];
    assert Expired(s, at, [id]) == [id];
    hide FireTimer;
    var s1 := FireTimer(s, id, [], env).0;
    assert FireTimers(s1, [], [], envs, 1) == (s1, Done);
    assert FireTimers(s, [id], [], envs, 0) == (s1, Done);
  }

  lemma ApplyTimers(s: State, now: Time, order: seq<Uuid>, defOrder: seq<Uuid>, envs: nat -> Env)
    ensures Apply(s, Timers(now, order, defOrder, envs)) == ProcessTimers(s, now, order, defOrder, envs).0
  {}

  lemma TickFires(s: State, id: Uuid, next: string, at: Time)
    requires Ticking(s, id, next) && MayRepeat(s.timers[id].data) && s.timers[id].data.remaining.None?
    requires s.timers[id].data.expiresAt <= at
    ensures var s' := Apply(s, Tick(s, id, next, at));
      && s'.fired == s.fired + [TimerFired(id, s.timers[id].data.origin)]
      && exists id' :: Ticking(s', id', next) && Follows(s.timers[id], s'.timers[id'], at)
  {
    var env := TickEnv(s, id, next, at);
    FiringTicksOn(s, id, next, at, env);
    FiresAlone(s, id, at, env);
    hide FireTimer, Ticking, ProcessTimers, Apply, TickEnv;
    ApplyTimers(s, at, [id], [], Always(env));
  }

  lemma OneMoreFiring(before: seq<Firing>, id: Uuid, o: Uuid, after: seq<Firing>)
    requires before + [TimerFired(id, o)] <= after
    ensures before <= after && Firings(after[|before|..], o) == Firings(after[|before| + 1..], o) + 1
  {
    CountedFirst(before, TimerFired(id, o), after, o);
    assert [TimerFired(id, o)][..0] == [];
  }

  /** The time of the next call: the timer is due, and the clock does not run backwards. */
  function DueAt(e: Entry<TimerInfo>, clock: Time): Time {
    if e.data.expiresAt <= clock then clock else e.data.expiresAt
  }

  /** The run reads this time first, and later ones after it. */
  lemma TickReads(s: State, id: Uuid, next: string, at: Time, clock: Time, rest: seq<Call>)
    requires Ticking(s, id, next) && clock <= at && ClockFrom(rest, at)
    ensures ClockFrom([Tick(s, id, next, at)] + rest, clock)
  {
    assert ([Tick(s, id, next, at)] + rest)[1..] == rest;
    hide ClockFrom, Ticking, TickEnv;
  }

  /** For every number there is a run, whose clock does not run backwards, in which the chain of such a
      timer fires that often: the repetitions its definition counts do not matter. */
  lemma {:induction false} ChainFiresWithoutEnd(s: State, id: Uuid, next: string, clock: Time, k: nat)
      returns (calls: seq<Call>)
    requires Ticking(s, id, next) && MayRepeat(s.timers[id].data) && s.timers[id].data.remaining.None?
    ensures ClockFrom(calls, clock) && |calls| == k && s.fired <= RunCalls(s, calls).fired
    ensures Firings(RunCalls(s, calls).fired[|s.fired|..], s.timers[id].data.origin) == k
    decreases k
  {
    if k == 0 {
      calls := [];
      assert s.fired[|s.fired|..] == [];
    } else {
      var at, o := DueAt(s.timers[id], clock), s.timers[id].data.origin;
      var tick := Tick(s, id, next, at);
      var s1 := Apply(s, tick);
      TickFires(s, id, next, at);
      hide Ticking, Apply, Firings, ClockFrom, Tick, MayRepeat;
      var id' :| Ticking(s1, id', next) && Follows(s.timers[id], s1.timers[id'], at);
      var rest := ChainFiresWithoutEnd(s1, id', next, at, k - 1);
      calls := [tick] + rest;
      assert calls[1..] == rest;
      OneMoreFiring(s.fired, id, o, RunCalls(s1, rest).fired);
      TickReads(s, id, next, at, clock, rest);
    }
  }

  /** The chain fires at most so often, whatever calls follow while the clock does not run backwards. */
  ghost predicate BoundedBy(s: State, o: Uuid, clock: Time, limit: nat) {
    forall calls: seq<Call> :: ClockFrom(calls, clock) ==>
      |s.fired| <= |RunCalls(s, calls).fired| && Firings(RunCalls(s, calls).fired[|s.fired|..], o) <= limit
  }

  /** The chain of a timer that does not interrupt, while its token waits, is bounded over all runs exactly
      when the timer has a limit or cannot be scheduled again. The engine sets no limit, so `R3/PT10S`
      repeats for as long as the activity waits. */
  lemma ChainBoundedIff(s: State, id: Uuid, next: string, clock: Time)
    requires Ticking(s, id, next) && OneTimerPerChain(s)
    ensures var e := s.timers[id];
      (exists limit: nat :: BoundedBy(s, e.data.origin, clock, limit)) <==>
        (e.data.remaining.Some? || !MayRepeat(e.data))
  {
    var e := s.timers[id];
    hide Ticking, OneTimerPerChain, Firings, ClockFrom;
    if e.data.remaining.Some? || !MayRepeat(e.data) {
      var limit := Left(e.data).value + 1;
      forall calls: seq<Call> ensures |s.fired| <= |RunCalls(s, calls).fired|
          && Firings(RunCalls(s, calls).fired[|s.fired|..], e.data.origin) <= limit
      {
        TickingSane(s, id, next);
        ChainFiresAsOftenAsItRepeats(s, calls, id);
      }
      assert BoundedBy(s, e.data.origin, clock, limit);
    } else if limit: nat :| BoundedBy(s, e.data.origin, clock, limit) {
      var calls := ChainFiresWithoutEnd(s, id, next, clock, limit + 1);
      assert false;
    }
  }

  lemma TickingSane(s: State, id: Uuid, next: string)
    requires Ticking(s, id, next)
    ensures Sane(s)
  {}
}
