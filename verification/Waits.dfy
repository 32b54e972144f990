/** One event per wait: the waits registered for one token exclude each other, and a chain of recurring
    timers is as long as its repetitions say (engine-core/src/engine/mod.rs, timer_processor.rs). */
module Waits {
  import opened Values
  import opened Definition
  import opened EngineState
  import opened Executor
  import opened Operations
  import opened CallFrames
  import opened Runs
  import opened Evolution

  /** A set of waits: timers and message catches by id. */
  datatype Group = Group(timers: set<Uuid>, catches: set<Uuid>) {
    predicate Has(f: Firing) {
      match f
      case TimerFired(id, _) => id in timers
      case CatchFired(id) => id in catches
    }
  }

  /** The waits for token `t` of instance `i`. */
  function WaitsOf(s: State, i: Uuid, t: Uuid): Group {
    Group(set id | id in s.timers && s.timers[id].instanceId == i && s.timers[id].tokenId == t,
          set id | id in s.catches && s.catches[id].instanceId == i && s.catches[id].tokenId == t)
  }

  ghost predicate AllOf<K>(m: map<Uuid, Entry<K>>, ids: set<Uuid>, i: Uuid, t: Uuid) {
    forall id <- ids :: id in m ==> m[id].instanceId == i && m[id].tokenId == t
  }

  ghost predicate NoneOf<K>(m: map<Uuid, Entry<K>>, ids: set<Uuid>) {
    forall id <- ids :: id !in m
  }

  /** After the first `base` firings, the group has not fired. */
  ghost predicate Silent(fired: seq<Firing>, base: nat, group: Group) {
    forall p :: base <= p < |fired| ==> !group.Has(fired[p])
  }

  ghost predicate FiredAtMostOnce(fired: seq<Firing>, base: nat, group: Group) {
    forall p, q :: base <= p < q < |fired| && group.Has(fired[p]) ==> !group.Has(fired[q])
  }

  /** Either none of the group fired and those left still wait for the token, or one fired and none is
      left. */
  ghost predicate Exclusive(s: State, group: Group, i: Uuid, t: Uuid, before: seq<Firing>) {
    && before <= s.fired && (forall id <- group.timers + group.catches :: id < s.nextId)
    && (|| (Silent(s.fired, |before|, group) && AllOf(s.timers, group.timers, i, t)
       && AllOf(s.catches, group.catches, i, t))
        || (FiredAtMostOnce(s.fired, |before|, group) && NoneOf(s.timers, group.timers)
           && NoneOf(s.catches, group.catches)))
  }

  lemma QuietExclusive(a: State, b: State, group: Group, i: Uuid, t: Uuid, before: seq<Firing>)
    requires Exclusive(a, group, i, t, before) && Quiet(a, b)
    ensures Exclusive(b, group, i, t, before)
  {}

  lemma TimerExclusive(a: State, id: Uuid, group: Group, i: Uuid, t: Uuid, before: seq<Firing>)
    requires Exclusive(a, group, i, t, before) && id in a.timers
    ensures Exclusive(TimerCleared(a, id), group, i, t, before)
  {}

  lemma CatchExclusive(a: State, id: Uuid, group: Group, i: Uuid, t: Uuid, before: seq<Firing>)
    requires Exclusive(a, group, i, t, before) && id in a.catches
    ensures Exclusive(CatchCleared(a, id), group, i, t, before)
  {}

  /** The timer that follows a fired one has a fresh id, so it is in no earlier group. */
  lemma RescheduleExclusive(a: State, e: Entry<TimerInfo>, env: Env, group: Group, i: Uuid, t: Uuid,
      before: seq<Firing>)
    requires Exclusive(a, group, i, t, before)
    ensures Exclusive(Reschedule(a, e, env), group, i, t, before)
  {}

  lemma TakeTaskExclusive(a: State, id: Uuid, group: Group, i: Uuid, t: Uuid, before: seq<Firing>)
    requires Exclusive(a, group, i, t, before)
    ensures Exclusive(TakeServiceTask(a, id), group, i, t, before)
  {}

  lemma StepExclusive(a: State, b: State, group: Group, i: Uuid, t: Uuid, before: seq<Firing>)
    requires Exclusive(a, group, i, t, before) && Moves(a, b)
    ensures Exclusive(b, group, i, t, before)
  {
    hide Exclusive, Quiet, Sane, Reschedule, TimerCleared, CatchCleared;
    if Quiet(a, b) {
      QuietExclusive(a, b, group, i, t, before);
    } else if id, mid, env :| FiresTimer(a, b, id, mid, env) {
      TimerExclusive(a, id, group, i, t, before);
      QuietExclusive(TimerCleared(a, id), mid, group, i, t, before);
      RescheduleExclusive(mid, a.timers[id], env, group, i, t, before);
    } else if id :| FiresCatch(a, b, id) {
      CatchExclusive(a, id, group, i, t, before);
      QuietExclusive(CatchCleared(a, id), b, group, i, t, before);
    } else {
      var id :| Consumes(a, b, id);
      TakeTaskExclusive(a, id, group, i, t, before);
      QuietExclusive(TakeServiceTask(a, id), b, group, i, t, before);
    }
  }

  /** Of the waits pending together for one token, at most one ever fires, whatever calls follow and
      however many of them one call had collected. */
  lemma OneEventPerWait(s: State, calls: seq<Call>, i: Uuid, t: Uuid)
    requires Sane(s)
    ensures var s' := RunCalls(s, calls);
      s.fired <= s'.fired && FiredAtMostOnce(s'.fired, |s.fired|, WaitsOf(s, i, t))
  {
    var group := WaitsOf(s, i, t);
    var inv := b => Exclusive(b, group, i, t, s.fired);
    assert inv(s);
    forall a, b | Moves(a, b) && inv(a) ensures inv(b) {
      StepExclusive(a, b, group, i, t, s.fired);
    }
    RunPreserves(s, calls, inv);
  }

  // ---- Recurring timers ----

  function Firings(fired: seq<Firing>, origin: Uuid): nat {
    if fired == [] then 0
    else Firings(fired[..|fired| - 1], origin)
         + (if fired[|fired| - 1].TimerFired? && fired[|fired| - 1].origin == origin then 1 else 0)
  }

  /** Each chain of rescheduled timers has at most one timer pending. */
  ghost predicate OneTimerPerChain(s: State) {
    && (forall id <- s.timers :: s.timers[id].data.origin < s.nextId)
    && (forall x, y :: x in s.timers && y in s.timers && s.timers[x].data.origin == s.timers[y].data.origin ==> x == y)
  }

  lemma QuietKeepsChains(a: State, b: State)
    requires Sane(b) && OneTimerPerChain(a) && Quiet(a, b)
    ensures OneTimerPerChain(b)
  {}

  lemma ClearedKeepsChains(a: State, id: Uuid)
    requires OneTimerPerChain(a) && id in a.timers
    ensures OneTimerPerChain(TimerCleared(a, id))
    ensures forall x <- TimerCleared(a, id).timers ::
      TimerCleared(a, id).timers[x].data.origin != a.timers[id].data.origin
  {}

  lemma QuietKeepsGap(a: State, b: State, o: Uuid)
    requires Quiet(a, b) && o < a.nextId && forall x <- a.timers :: a.timers[x].data.origin != o
    ensures forall x <- b.timers :: b.timers[x].data.origin != o
  {}

  lemma RescheduleKeepsChains(a: State, e: Entry<TimerInfo>, env: Env)
    requires OneTimerPerChain(a) && e.data.origin < a.nextId && forall x <- a.timers ::
      a.timers[x].data.origin != e.data.origin
    ensures OneTimerPerChain(Reschedule(a, e, env))
  {}

  lemma MovesKeepChains(a: State, b: State)
    requires OneTimerPerChain(a) && Moves(a, b)
    ensures OneTimerPerChain(b)
  {
    hide Quiet, Reschedule, TimerCleared, Sane;
    if Quiet(a, b) {
      QuietKeepsChains(a, b);
    } else if id, mid, env :| FiresTimer(a, b, id, mid, env) {
      FiresTimerKeepsChains(a, b, id, mid, env);
    } else if id :| FiresCatch(a, b, id) {
      ClearCatchKeepsChains(a, id);
      QuietKeepsChains(CatchCleared(a, id), b);
    } else {
      var id :| Consumes(a, b, id);
      QuietKeepsChains(TakeServiceTask(a, id), b);
    }
  }

  lemma ClearCatchKeepsChains(a: State, id: Uuid)
    requires OneTimerPerChain(a) && id in a.catches
    ensures OneTimerPerChain(CatchCleared(a, id))
  {}

  lemma TimerClearedParts(a: State, id: Uuid)
    requires id in a.timers
    ensures var b := TimerCleared(a, id);
      b.nextId == a.nextId && b.fired == a.fired + [TimerFired(id, a.timers[id].data.origin)]
      && forall x <- b.timers :: x in a.timers && x != id && b.timers[x] == a.timers[x]
  {}

  lemma QuietIds(a: State, b: State)
    requires Quiet(a, b)
    ensures a.nextId <= b.nextId && b.fired == a.fired
  {}

  lemma FiresTimerKeepsChains(a: State, b: State, id: Uuid, mid: State, env: Env)
    requires OneTimerPerChain(a) && FiresTimer(a, b, id, mid, env)
    ensures OneTimerPerChain(b)
  {
    var cleared := TimerCleared(a, id);
    ClearedKeepsChains(a, id);
    TimerClearedParts(a, id);
    QuietIds(cleared, mid);
    hide TimerCleared, Reschedule;
    QuietKeepsChains(cleared, mid);
    QuietKeepsGap(cleared, mid, a.timers[id].data.origin);
    if b != mid {
      RescheduleKeepsChains(mid, a.timers[id], env);
    }
  }

  lemma ReletsKeepChains(a: State, b: State)
    requires OneTimerPerChain(a) && Relets(a, b)
    ensures OneTimerPerChain(b)
  {}

  /** After any run of calls, each chain has at most one timer pending. */
  lemma ChainsStaySingle(s: State, calls: seq<Call>)
    requires Sane(s) && OneTimerPerChain(s)
    ensures OneTimerPerChain(RunCalls(s, calls))
  {
    var inv := b => OneTimerPerChain(b);
    forall a, b | Moves(a, b) && inv(a) ensures inv(b) {
      MovesKeepChains(a, b);
    }
    forall a, b | Relets(a, b) && inv(a) ensures inv(b) {
      ReletsKeepChains(a, b);
    }
    RunPreserves(s, calls, inv);
  }

  // ---- How often a chain fires ----

  /** The timer has a next expiry when it fires, at least for some clock and cron library. */
  predicate MayRepeat(data: TimerInfo) {
    && data.timerDef.Some? && data.timerDef.value.IsRecurring()
    && (data.timerDef.value.RepeatingInterval? ==> data.timerDef.value.interval <= MAX_CHRONO_SECS)
  }

  /** How often the timer is scheduled again at most; `None` when there is no limit. */
  function Left(data: TimerInfo): Option<nat> {
    if MayRepeat(data) then data.remaining else Some(0)
  }

  /** The chain of `o` has `limit` firings left at most: those counted after the first `base` firings,
      and those its pending timer still has. */
  ghost predicate ChainBudget(s: State, o: Uuid, base: nat, limit: nat) {
    && base <= |s.fired| && o < s.nextId && Firings(s.fired[base..], o) <= limit
    && forall id <- s.timers :: s.timers[id].data.origin == o ==>
         Left(s.timers[id].data).Some? && Firings(s.fired[base..], o) + Left(s.timers[id].data).value + 1 <= limit
  }

  ghost predicate Chain(s: State, o: Uuid, base: nat, limit: nat) {
    OneTimerPerChain(s) && ChainBudget(s, o, base, limit)
  }

  lemma QuietKeepsBudget(a: State, b: State, o: Uuid, base: nat, limit: nat)
    requires ChainBudget(a, o, base, limit) && Quiet(a, b)
    ensures ChainBudget(b, o, base, limit)
  {}

  /** A firing of the chain uses one up; the timer it may schedule has one repetition less. */
  lemma FiringUsesBudget(a: State, id: Uuid, o: Uuid, base: nat, limit: nat)
    requires Chain(a, o, base, limit) && id in a.timers
    ensures var b := TimerCleared(a, id); ChainBudget(b, o, base, limit)
    ensures var b, e := TimerCleared(a, id), a.timers[id]; e.data.origin == o ==>
      && Left(e.data).Some? && Firings(b.fired[base..], o) + Left(e.data).value <= limit
      && forall x <- b.timers :: b.timers[x].data.origin != o
  {
    var b := TimerCleared(a, id);
    TimerClearedParts(a, id);
    assert b.fired[base..] == a.fired[base..] + [TimerFired(id, a.timers[id].data.origin)];
    assert b.fired[base..][..|b.fired[base..]| - 1] == a.fired[base..];
  }

  lemma RescheduleKeepsBudget(mid: State, e: Entry<TimerInfo>, env: Env, o: Uuid, base: nat, limit: nat)
    requires ChainBudget(mid, o, base, limit)
    requires e.data.origin == o ==> Left(e.data).Some? && Firings(mid.fired[base..], o) + Left(e.data).value <= limit
    ensures ChainBudget(Reschedule(mid, e, env), o, base, limit)
  {}

  lemma FiresTimerKeepsBudget(a: State, b: State, id: Uuid, mid: State, env: Env, o: Uuid, base: nat, limit: nat)
    requires Chain(a, o, base, limit) && FiresTimer(a, b, id, mid, env)
    ensures ChainBudget(b, o, base, limit)
  {
    FiringUsesBudget(a, id, o, base, limit);
    QuietIds(TimerCleared(a, id), mid);
    hide TimerCleared, Reschedule, ChainBudget;
    QuietKeepsBudget(TimerCleared(a, id), mid, o, base, limit);
    if b != mid {
      RescheduleKeepsBudget(mid, a.timers[id], env, o, base, limit);
    }
  }

  lemma CatchKeepsBudget(a: State, id: Uuid, o: Uuid, base: nat, limit: nat)
    requires Sane(a) && Chain(a, o, base, limit) && id in a.catches 
    ensures ChainBudget(CatchCleared(a, id), o, base, limit)
  {
    var b := CatchCleared(a, id);
    assert b.fired[base..] == a.fired[base..] + [CatchFired(id)];
    assert b.fired[base..][..|b.fired[base..]| - 1] == a.fired[base..];
  }

  lemma MovesKeepBudget(a: State, b: State, o: Uuid, base: nat, limit: nat)
    requires Chain(a, o, base, limit) && Moves(a, b)
    ensures Chain(b, o, base, limit)
  {
    MovesKeepChains(a, b);
    hide Quiet, Reschedule, TimerCleared, CatchCleared, Sane, ChainBudget, OneTimerPerChain;
    if Quiet(a, b) {
      QuietKeepsBudget(a, b, o, base, limit);
    } else if id, mid, env :| FiresTimer(a, b, id, mid, env) {
      FiresTimerKeepsBudget(a, b, id, mid, env, o, base, limit);
    } else if id :| FiresCatch(a, b, id) {
      CatchKeepsBudget(a, id, o, base, limit);
      QuietKeepsBudget(CatchCleared(a, id), b, o, base, limit);
    } else {
      var id :| Consumes(a, b, id);
      TaskKeepsBudget(a, id, o, base, limit);
      QuietKeepsBudget(TakeServiceTask(a, id), b, o, base, limit);
    }
  }

  lemma TaskKeepsBudget(a: State, id: Uuid, o: Uuid, base: nat, limit: nat)
    requires ChainBudget(a, o, base, limit)
    ensures ChainBudget(TakeServiceTask(a, id), o, base, limit)
  {}

  lemma ReletsKeepBudget(a: State, b: State, o: Uuid, base: nat, limit: nat)
    requires Chain(a, o, base, limit) && Relets(a, b)
    ensures Chain(b, o, base, limit)
  {}

  /** A timer with `n` repetitions left starts a chain that fires at most `n + 1` times, over any run; one
      that cannot be scheduled again fires once at most. */
  lemma ChainFiresAsOftenAsItRepeats(s: State, calls: seq<Call>, id: Uuid)
    requires Sane(s) && OneTimerPerChain(s) && id in s.timers && Left(s.timers[id].data).Some?
    ensures var s', e := RunCalls(s, calls), s.timers[id];
      |s.fired| <= |s'.fired| && Firings(s'.fired[|s.fired|..], e.data.origin) <= Left(e.data).value + 1
  {
    var o, base, limit := s.timers[id].data.origin, |s.fired|, Left(s.timers[id].data).value + 1;
    var inv := b => Chain(b, o, base, limit);
    assert s.fired[base..] == [];
    assert inv(s);
    forall a, b | Moves(a, b) && inv(a) ensures inv(b) {
      MovesKeepBudget(a, b, o, base, limit);
    }
    forall a, b | Relets(a, b) && inv(a) ensures inv(b) {
      ReletsKeepBudget(a, b, o, base, limit);
    }
    RunPreserves(s, calls, inv);
  }

  ghost predicate Unlimited(s: State) {
    forall id <- s.timers :: s.timers[id].data.remaining.None?
  }

  lemma QuietKeepsUnlimited(a: State, b: State)
    requires Unlimited(a) && Quiet(a, b)
    ensures Unlimited(b)
  {}

  lemma RescheduleKeepsUnlimited(mid: State, e: Entry<TimerInfo>, env: Env)
    requires Unlimited(mid) && e.data.remaining.None?
    ensures Unlimited(Reschedule(mid, e, env))
  {}

  lemma ClearedKeepsUnlimited(a: State)
    requires Unlimited(a)
    ensures forall id <- a.timers :: Unlimited(TimerCleared(a, id))
    ensures forall id <- a.catches :: Unlimited(CatchCleared(a, id))
    ensures forall id :: Unlimited(TakeServiceTask(a, id))
  {}

  lemma MovesKeepUnlimited(a: State, b: State)
    requires Unlimited(a) && Moves(a, b)
    ensures Unlimited(b)
  {
    ClearedKeepsUnlimited(a);
    hide Sane, Quiet, TimerCleared, CatchCleared, TakeServiceTask, Reschedule;
    if Quiet(a, b) {
      QuietKeepsUnlimited(a, b);
    } else if id, mid, env :| FiresTimer(a, b, id, mid, env) {
      QuietKeepsUnlimited(TimerCleared(a, id), mid);
      RescheduleKeepsUnlimited(mid, a.timers[id], env);
    } else if id :| FiresCatch(a, b, id) {
      QuietKeepsUnlimited(CatchCleared(a, id), b);
    } else {
      var id :| Consumes(a, b, id);
      QuietKeepsUnlimited(TakeServiceTask(a, id), b);
    }
  }

  /** The engine never sets a limit itself: timers it registers repeat for as long as they have a next
      expiry, also those whose definition counts repetitions. */
  lemma RegisteredTimersHaveNoLimit(s: State, calls: seq<Call>)
    requires Sane(s) && Unlimited(s)
    ensures Unlimited(RunCalls(s, calls))
  {
    var inv := b => Unlimited(b);
    forall a, b | Moves(a, b) && inv(a) ensures inv(b) {
      MovesKeepUnlimited(a, b);
    }
    RunPreserves(s, calls, inv);
  }

  // ---- Once per call ----

  /** The chain's pending timers a call could have collected: those with an id below `low`. */
  function OldTimers(s: State, low: Uuid, o: Uuid): set<Uuid> {
    set id | id in s.timers && id < low && s.timers[id].data.origin == o
  }

  ghost predicate AtMostOne(ids: set<Uuid>) {
    forall x, y :: x in ids && y in ids ==> x == y
  }

  lemma FireTimerParts(s: State, id: Uuid, defOrder: seq<Uuid>, env: Env, low: Uuid)
    requires Sane(s) && id in s.timers && low <= s.nextId
    ensures var s' := FireTimer(s, id, defOrder, env).0;
      && Sane(s') && s.nextId <= s'.nextId && s'.fired == s.fired + [TimerFired(id, s.timers[id].data.origin)]
      && forall x <- s'.timers :: x < low ==> x in s.timers && x != id && s'.timers[x] == s.timers[x]
  {
    var mid := ResumeTimer(s, id, defOrder, env).0;
    ResumeTimerSteps(s, id, defOrder, env);
    hide ResumeTimer, TimerCleared;
    StepsParts(TimerCleared(s, id), mid, s.timers[id].instanceId);
    TimerClearedParts(s, id);
    RescheduleParts(mid, s.timers[id], env);
  }

  lemma RescheduleParts(mid: State, e: Entry<TimerInfo>, env: Env)
    requires Sane(mid)
    ensures var s' := Reschedule(mid, e, env);
      Sane(s') && s'.fired == mid.fired && mid.nextId <= s'.nextId && forall x <- s'.timers :: x < mid.nextId ==>
        x in mid.timers && s'.timers[x] == mid.timers[x]
  {}

  lemma FiringShrinks(s: State, id: Uuid, defOrder: seq<Uuid>, env: Env, low: Uuid, o: Uuid)
    requires Sane(s) && id in s.timers && low <= s.nextId
    ensures OldTimers(FireTimer(s, id, defOrder, env).0, low, o) <= OldTimers(s, low, o) - {id}
  {
    FireTimerParts(s, id, defOrder, env, low);
    hide FireTimer;
  }

  lemma CountedFirst(before: seq<Firing>, f: Firing, after: seq<Firing>, o: Uuid)
    requires before + [f] <= after
    ensures Firings(after[|before|..], o) == Firings([f], o) + Firings(after[|before| + 1..], o)
  {
    assert after[|before|..] == [f] + after[|before| + 1..];
    FiringsAppend([f], after[|before| + 1..], o);
  }

  /** Among collected timers with ids below `low`, a chain with at most one of them fires at most once:
      the timer it schedules next has a later id, which was not collected. */
  lemma {:induction false} FiresOnceAmongCollected(s: State, ids: seq<Uuid>, defOrder: seq<Uuid>, envs: nat -> Env,
      k: nat, low: Uuid, o: Uuid)
    requires Sane(s) && low <= s.nextId && (forall id <- ids :: id < low) && AtMostOne(OldTimers(s, low, o))
    ensures var s' := FireTimers(s, ids, defOrder, envs, k).0;
      && s.fired <= s'.fired && Firings(s'.fired[|s.fired|..], o) <= 1
      && (OldTimers(s, low, o) == {} ==> Firings(s'.fired[|s.fired|..], o) == 0)
    decreases |ids|
  {
    if ids == [] || ids[0] !in s.timers {
      assert s.fired[|s.fired|..] == [];
    } else {
      var id := ids[0];
      assert id in ids && forall x <- ids[1..] :: x in ids;
      var (s1, r) := FireTimer(s, id, defOrder, envs(k));
      FireTimerParts(s, id, defOrder, envs(k), low);
      FiringShrinks(s, id, defOrder, envs(k), low, o);
      var f := TimerFired(id, s.timers[id].data.origin);
      if f.origin == o {
        assert id in OldTimers(s, low, o);
      }
      hide FireTimer, OldTimers, Sane;
      if r.Failed? {
        CountedFirst(s.fired, f, s1.fired, o);
        assert s1.fired[|s.fired| + 1..] == [];
      } else {
        FiresOnceAmongCollected(s1, ids[1..], defOrder, envs, k + 1, low, o);
        CountedFirst(s.fired, f, FireTimers(s1, ids[1..], defOrder, envs, k + 1).0.fired, o);
      }
    }
  }

  lemma {:induction false} FiringsAppend(a: seq<Firing>, b: seq<Firing>, o: Uuid)
    ensures Firings(a + b, o) == Firings(a, o) + Firings(b, o)
    decreases |b|
  {
    if b == [] {
      assert a + b == a;
    } else {
      assert (a + b)[..|a + b| - 1] == a + b[..|b| - 1];
      FiringsAppend(a, b[..|b| - 1], o);
    }
  }

  lemma {:induction false} ExpiredArePending(s: State, now: Time, order: seq<Uuid>)
    ensures forall id <- Expired(s, now, order) :: id in s.timers && s.timers[id].data.expiresAt <= now
    decreases |order|
  {
    if order != [] {
      ExpiredArePending(s, now, order[1..]);
    }
  }

  /** One call of `process_timers` fires each chain at most once. */
  lemma ChainFiresOncePerCall(s: State, now: Time, order: seq<Uuid>, defOrder: seq<Uuid>, envs: nat -> Env, o: Uuid)
    requires Sane(s) && OneTimerPerChain(s)
    ensures var s' := ProcessTimers(s, now, order, defOrder, envs).0;
      s.fired <= s'.fired && Firings(s'.fired[|s.fired|..], o) <= 1
  {
    ExpiredArePending(s, now, order);
    hide FireTimers;
    FiresOnceAmongCollected(s, Expired(s, now, order), defOrder, envs, 0, s.nextId, o);
  }
}
