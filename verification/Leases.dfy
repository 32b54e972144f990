/** The lease protocol of service tasks: who may hold a task when, and who is turned away
    (engine-core/src/engine/service_task.rs). */
module Leases {
  import opened Values
  import opened Definition
  import opened EngineState
  import opened Executor
  import opened Operations
  import opened CallFrames
  import opened Runs
  import opened Evolution

  // ---- What one fetch grants ----

  ghost predicate Granted(granted: seq<Entry<ServiceInfo>>, id: Uuid) {
    exists e <- granted :: e.id == id
  }

  ghost predicate OwnIds(m: ServiceTasks) {
    forall id <- m :: m[id].id == id
  }

  /** A granted task was lockable and is now locked for the worker; every other task is untouched. */
  lemma {:induction false} GrantsLock(m: ServiceTasks, order: seq<Uuid>, worker: string, room: nat, topics: seq<string>,
      now: Time, until: Time, id: Uuid)
    requires OwnIds(m)
    ensures var (m', granted) := LockTasks(m, order, worker, room, topics, now, until);
      if Granted(granted, id)
      then id in m && Lockable(m[id], topics, now) && id in m' && m'[id] == Locked(m[id], worker, until)
      else (id in m <==> id in m') && (id in m ==> m'[id] == m[id])
    decreases |order|
  {
    if order != [] && room > 0 {
      var x := order[0];
      if x in m && Lockable(m[x], topics, now) {
        var e := Locked(m[x], worker, until);
        GrantsLock(m[x := e], order[1..], worker, room - 1, topics, now, until, id);
        var rest := LockTasks(m[x := e], order[1..], worker, room - 1, topics, now, until).1;
        assert forall k :: 0 <= k < |rest| ==> ([e] + rest)[k + 1] == rest[k];
        assert ([e] + rest)[0] == e;
        assert Granted([e] + rest, id) <==> (x == id || Granted(rest, id));
      } else {
        GrantsLock(m, order[1..], worker, room, topics, now, until, id);
      }
    }
  }

  ghost predicate DistinctIds(granted: seq<Entry<ServiceInfo>>) {
    forall a, b :: 0 <= a < b < |granted| ==> granted[a].id != granted[b].id
  }

  lemma PrependDistinct(e: Entry<ServiceInfo>, rest: seq<Entry<ServiceInfo>>)
    requires DistinctIds(rest) && !Granted(rest, e.id)
    ensures DistinctIds([e] + rest)
  {}

  lemma PrependGranted(e: Entry<ServiceInfo>, rest: seq<Entry<ServiceInfo>>, id: Uuid)
    ensures Granted([e] + rest, id) <==> (e.id == id || Granted(rest, id))
  {
    assert ([e] + rest)[0] == e;
    assert forall k :: 0 <= k < |rest| ==> ([e] + rest)[k + 1] == rest[k];
  }

  /** Granted tasks come from the order the map is walked in, each at most once, and not more than asked
      for. */
  lemma {:induction false} GrantsFromOrder(m: ServiceTasks, order: seq<Uuid>, worker: string, room: nat,
      topics: seq<string>, now: Time, until: Time)
    requires OwnIds(m) && NoDup(order)
    ensures var granted := LockTasks(m, order, worker, room, topics, now, until).1;
      && |granted| <= room && (forall e <- granted :: e.id in order && e.data.topic in topics) && DistinctIds(granted)
    decreases |order|
  {
    if order != [] && room > 0 {
      var x := order[0];
      assert x !in order[1..] && NoDup(order[1..]) && forall y <- order[1..] :: y in order;
      if x in m && Lockable(m[x], topics, now) {
        var e := Locked(m[x], worker, until);
        GrantsFromOrder(m[x := e], order[1..], worker, room - 1, topics, now, until);
        hide LockTasks;
        PrependDistinct(e, LockTasks(m[x := e], order[1..], worker, room - 1, topics, now, until).1);
      } else {
        GrantsFromOrder(m, order[1..], worker, room, topics, now, until);
      }
    }
  }

  /** When there was room left, every lockable task on the way was granted. */
  lemma {:induction false} GrantsFill(m: ServiceTasks, order: seq<Uuid>, worker: string, room: nat, topics: seq<string>,
      now: Time, until: Time, id: Uuid)
    requires OwnIds(m) && NoDup(order) && id in order && id in m && Lockable(m[id], topics, now)
    ensures var granted := LockTasks(m, order, worker, room, topics, now, until).1;
      |granted| < room ==> Granted(granted, id)
    decreases |order|
  {
    if room > 0 {
      var x := order[0];
      assert NoDup(order[1..]) && (x == id || id in order[1..]);
      if x in m && Lockable(m[x], topics, now) {
        var e := Locked(m[x], worker, until);
        PrependGranted(e, LockTasks(m[x := e], order[1..], worker, room - 1, topics, now, until).1, id);
        if x != id {
          GrantsFill(m[x := e], order[1..], worker, room - 1, topics, now, until, id);
        }
      } else {
        GrantsFill(m, order[1..], worker, room, topics, now, until, id);
      }
    }
  }

  /** The task has one of the topics, and no lock on it is still running at `now`. */
  ghost predicate Waiting(e: Entry<ServiceInfo>, topics: seq<string>, now: Time) {
    && (exists k :: 0 <= k < |topics| && topics[k] == e.data.topic)
    && (e.data.lockExpiration.Some? ==> e.data.lockExpiration.value <= now)
  }

  /** The task is the worker's until then, and otherwise as it was. */
  ghost predicate LockedTo(was: Entry<ServiceInfo>, now: Entry<ServiceInfo>, worker: string, until: Time) {
    now == was.(data := was.data.(workerId := Some(worker), lockExpiration := Some(until)))
  }

  /** A fetch hands out at most `max` distinct tasks, each of which waited with one of the topics asked
      for, without a lock or with one that had run out, and is locked to the caller after. When it hands
      out fewer, no such task is left. Tasks it does not hand out are untouched. */
  lemma FetchHandsOut(s: State, worker: string, max: nat, topics: seq<string>, duration: int, now: Time,
      order: seq<Uuid>)
    requires Sane(s) && Enumerates(order, s.serviceTasks.Keys)
    ensures var (s', granted) := FetchAndLock(s, worker, max, topics, duration, now, order);
      && |granted| <= max && DistinctIds(granted)
      && (forall e <- granted ::
            && e.id in s.serviceTasks && Waiting(s.serviceTasks[e.id], topics, now)
            && e.id in s'.serviceTasks && s'.serviceTasks[e.id] == e
            && LockedTo(s.serviceTasks[e.id], e, worker, now + duration))
      && (|granted| < max && duration > 0 ==> forall id <- s'.serviceTasks ::
         !Waiting(s'.serviceTasks[id], topics, now))
      && s'.serviceTasks.Keys == s.serviceTasks.Keys && s' == s.(serviceTasks := s'.serviceTasks)
      && (forall id <- s.serviceTasks :: !Granted(granted, id) ==> s'.serviceTasks[id] == s.serviceTasks[id])
  {
    var (s', granted) := FetchAndLock(s, worker, max, topics, duration, now, order);
    var m, until := s.serviceTasks, now + duration;
    assert OwnIds(m);
    GrantsFromOrder(m, order, worker, max, topics, now, until);
    forall id ensures id in s'.serviceTasks <==> id in m {
      GrantsLock(m, order, worker, max, topics, now, until, id);
    }
    hide LockTasks, Sane;
    forall e | e in granted
      ensures e.id in m && Waiting(m[e.id], topics, now) && e.id in s'.serviceTasks && s'.serviceTasks[e.id] == e
        && LockedTo(m[e.id], e, worker, until)
    {
      assert Granted(granted, e.id);
      GrantsLock(m, order, worker, max, topics, now, until, e.id);
      GrantedAsLocked(m, order, worker, max, topics, now, until, e);
    }
    forall id | id in m && !Granted(granted, id) ensures s'.serviceTasks[id] == m[id] {
      GrantsLock(m, order, worker, max, topics, now, until, id);
    }
    if |granted| < max && duration > 0 {
      forall id | id in s'.serviceTasks ensures !Waiting(s'.serviceTasks[id], topics, now) {
        GrantsLock(m, order, worker, max, topics, now, until, id);
        if id in m && Lockable(m[id], topics, now) {
          GrantsFill(m, order, worker, max, topics, now, until, id);
        }
      }
    }
  }

  /** The answer shows each task as it is locked now. */
  lemma {:induction false} GrantedAsLocked(m: ServiceTasks, order: seq<Uuid>, worker: string, room: nat,
      topics: seq<string>, now: Time, until: Time, e: Entry<ServiceInfo>)
    requires OwnIds(m) && NoDup(order) && e in LockTasks(m, order, worker, room, topics, now, until).1
    ensures e.id in m && e == Locked(m[e.id], worker, until) && e.id in order
    decreases |order|
  {
    if order != [] && room > 0 {
      var x := order[0];
      assert x !in order[1..] && NoDup(order[1..]) && forall y <- order[1..] :: y in order;
      if x in m && Lockable(m[x], topics, now) {
        var first := Locked(m[x], worker, until);
        if e != first {
          GrantedAsLocked(m[x := first], order[1..], worker, room - 1, topics, now, until, e);
        }
      } else {
        GrantedAsLocked(m, order[1..], worker, room, topics, now, until, e);
      }
    }
  }

  // ---- A worker and an expiry come together ----

  ghost predicate AllPaired(s: State) {
    forall id <- s.serviceTasks :: Paired(s.serviceTasks[id])
  }

  lemma MovesKeepPairs(a: State, b: State)
    requires AllPaired(a) && Moves(a, b)
    ensures AllPaired(b)
  {
    MovesKeepTasks(a, b);
  }

  /** Steps other than lease calls leave the lease of every pending task alone. */
  lemma MovesKeepTasks(a: State, b: State)
    requires Moves(a, b)
    ensures a.nextId <= b.nextId && TasksKept(a.serviceTasks, b.serviceTasks, a.nextId)
  {
    hide Sane;
    if id, mid, env :| FiresTimer(a, b, id, mid, env) {
      hide Quiet;
      RescheduleTasks(mid, a.timers[id], env);
      QuietTasks(TimerCleared(a, id), mid);
    }
  }

  lemma QuietTasks(a: State, b: State)
    requires Quiet(a, b)
    ensures a.nextId <= b.nextId && TasksKept(a.serviceTasks, b.serviceTasks, a.nextId)
  {}

  lemma RescheduleTasks(a: State, e: Entry<TimerInfo>, env: Env)
    ensures var b := Reschedule(a, e, env); b.serviceTasks == a.serviceTasks && a.nextId <= b.nextId
  {}

  /** `workerId` and `lockExpiration` are both set or both empty, after every run. */
  lemma LeasesStayPaired(s: State, calls: seq<Call>)
    requires Sane(s) && AllPaired(s)
    ensures AllPaired(RunCalls(s, calls))
  {
    var inv := b => AllPaired(b);
    forall a, b | Moves(a, b) && inv(a) ensures inv(b) {
      MovesKeepPairs(a, b);
    }
    RunPreserves(s, calls, inv);
  }

  // ---- Fencing ----

  /** A worker that does not hold the task gets the error that says why, from every call, and changes
      nothing. */
  lemma NonHolderIsFenced(s: State, id: Uuid, worker: string, extra: Variables, env: Env, retries: Option<int>,
                          message: Option<string>, details: Option<string>, duration: int, now: Time, code: string)
    requires Sane(s) && !HeldBy(s, id, worker)
    ensures CompleteServiceTask(s, id, worker, extra, env) == (s, NotHeldError(s, id))
    ensures FailServiceTask(s, id, worker, retries, message, details) == (s, NotHeldError(s, id))
    ensures ExtendLock(s, id, worker, duration, now) == (s, NotHeldError(s, id))
    ensures HandleBpmnError(s, id, worker, code, env) == (s, NotHeldError(s, id))
  {}

  // ---- Leases over a run ----

  /** A lease as the answers of the API show it: granted to a worker from one time until another, and
      perhaps given up. */
  datatype Lease = Lease(worker: string, from: Time, until: Time, released: bool)

  /** The last lease was given up. */
  function Ended(leases: seq<Lease>): seq<Lease>
    requires leases != []
  {
    leases[|leases| - 1 := leases[|leases| - 1].(released := true)]
  }

  /** The leases on `id` after one more call. */
  ghost function Record(leases: seq<Lease>, s: State, c: Call, id: Uuid): seq<Lease> {
    match c
    case Fetch(worker, max, topics, duration, now, order) =>
      if Granted(FetchAndLock(s, worker, max, topics, duration, now, order).1, id)
      then leases + [Lease(worker, now, now + duration, false)] else leases
    case Extend(x, worker, duration, now) =>
      if x == id && leases != [] && ExtendLock(s, id, worker, duration, now).1.Done?
      then leases[|leases| - 1 := leases[|leases| - 1].(until := now + duration)] else leases
    case ServiceFailed(x, worker, retries, message, details) =>
      if x == id && leases != [] && FailServiceTask(s, id, worker, retries, message, details).1.Done? then Ended(leases)
        else leases
    case Retry(x, retries) =>
      if x == id && leases != [] && RetryIncident(s, id, retries).1.Done? then Ended(leases) else leases
    case _ => leases
  }

  ghost function LeasesOver(leases: seq<Lease>, s: State, calls: seq<Call>, id: Uuid): seq<Lease>
    decreases |calls|
  {
    if calls == [] then leases else LeasesOver(Record(leases, s, calls[0], id), Apply(s, calls[0]), calls[1..], id)
  }

  ghost predicate NoOverlap(leases: seq<Lease>) {
    forall a, b :: 0 <= a < b < |leases| && !leases[a].released ==> leases[a].until <= leases[b].from
  }

  /** The last lease is the one the task shows. */
  ghost predicate Shows(s: State, id: Uuid, leases: seq<Lease>) {
    if id in s.serviceTasks && s.serviceTasks[id].data.workerId.Some?
    then
      && leases != [] && !leases[|leases| - 1].released
      && s.serviceTasks[id].data.workerId == Some(leases[|leases| - 1].worker)
      && s.serviceTasks[id].data.lockExpiration == Some(leases[|leases| - 1].until)
    else if id in s.serviceTasks
    then s.serviceTasks[id].data.lockExpiration.None? && (leases == [] || leases[|leases| - 1].released)
    else id >= s.nextId ==> leases == []
  }

  ghost predicate LeaseInvariant(s: State, id: Uuid, leases: seq<Lease>, clock: Time) {
    && Sane(s) && NoOverlap(leases) && (forall k :: 0 <= k < |leases| ==> leases[k].from <= clock)
    && Shows(s, id, leases)
  }

  lemma OtherCallKeepsLease(s: State, c: Call, id: Uuid, leases: seq<Lease>, clock: Time)
    requires LeaseInvariant(s, id, leases, clock) && !LeaseCall(c) && clock <= ReadBy(c, clock)
    ensures LeaseInvariant(Apply(s, c), id, leases, ReadBy(c, clock))
  {
    var inv := (b: State) => s.nextId <= b.nextId && TasksKept(s.serviceTasks, b.serviceTasks, s.nextId);
    forall a, b | Moves(a, b) && inv(a) ensures inv(b) {
      MovesKeepTasks(a, b);
    }
    hide Apply, Sane;
    CallPreserves(s, c, inv);
  }

  lemma AppendLease(leases: seq<Lease>, lease: Lease, clock: Time)
    requires NoOverlap(leases) && (forall k :: 0 <= k < |leases| ==> leases[k].from <= clock <= lease.from)
    requires leases != [] && !leases[|leases| - 1].released ==> leases[|leases| - 1].until <= lease.from
    ensures NoOverlap(leases + [lease])
  {
    var all := leases + [lease];
    forall a, b | 0 <= a < b < |all| && !all[a].released ensures all[a].until <= all[b].from {
      if b == |leases| && a < |leases| - 1 {
        assert leases[a].until <= leases[|leases| - 1].from;
      }
    }
  }

  lemma FetchKeepsLeases(s: State, worker: string, max: nat, topics: seq<string>, duration: int, now: Time,
      order: seq<Uuid>,
                         id: Uuid, leases: seq<Lease>, clock: Time)
    requires LeaseInvariant(s, id, leases, clock) && clock <= now
    ensures var (s', granted) := FetchAndLock(s, worker, max, topics, duration, now, order);
      var lease := Lease(worker, now, now + duration, false);
      LeaseInvariant(s', id, if Granted(granted, id) then leases + [lease] else leases, now)
  {
    var m, lease := s.serviceTasks, Lease(worker, now, now + duration, false);
    FetchRelets(s, worker, max, topics, duration, now, order);
    ReletsSane(s, FetchAndLock(s, worker, max, topics, duration, now, order).0);
    assert OwnIds(m);
    GrantsLock(m, order, worker, max, topics, now, now + duration, id);
    hide LockTasks, Sane, Granted;
    if Granted(LockTasks(m, order, worker, max, topics, now, now + duration).1, id) {
      AppendLease(leases, lease, clock);
    }
  }

  lemma ExtendKeepsLeases(s: State, x: Uuid, worker: string, duration: int, now: Time, id: Uuid, leases: seq<Lease>,
      clock: Time)
    requires LeaseInvariant(s, id, leases, clock) && clock <= now
    ensures var (s', r) := ExtendLock(s, x, worker, duration, now);
      LeaseInvariant(s', id,
        if x == id && leases != [] && r.Done?
          then leases[|leases| - 1 := leases[|leases| - 1].(until := now + duration)] else leases, now)
  {
    ExtendRelets(s, x, worker, duration, now);
    ReletsSane(s, ExtendLock(s, x, worker, duration, now).0);
    hide Sane, Relets;
  }

  lemma ReleasedShows(s: State, id: Uuid, leases: seq<Lease>, e: Entry<ServiceInfo>)
    requires Shows(s, id, leases) && id in s.serviceTasks && e.data.workerId.None? && e.data.lockExpiration.None?
    ensures leases == [] ==> Shows(s.(serviceTasks := s.serviceTasks[id := e]), id, leases)
    ensures leases != [] ==>
      Shows(s.(serviceTasks := s.serviceTasks[id := e]), id, Ended(leases))
  {}

  lemma EndedKeeps(leases: seq<Lease>, clock: Time)
    requires leases != [] && NoOverlap(leases) && forall k :: 0 <= k < |leases| ==> leases[k].from <= clock
    ensures NoOverlap(Ended(leases)) && forall k :: 0 <= k < |Ended(leases)| ==> Ended(leases)[k].from <= clock
  {}

  lemma FailureKeepsLeases(s: State, x: Uuid, worker: string, retries: Option<int>, message: Option<string>,
      details: Option<string>,
                           id: Uuid, leases: seq<Lease>, clock: Time)
    requires LeaseInvariant(s, id, leases, clock)
    ensures var (s', r) := FailServiceTask(s, x, worker, retries, message, details);
      LeaseInvariant(s', id, if x == id && leases != [] && r.Done? then Ended(leases) else leases, clock)
  {
    FailureRelets(s, x, worker, retries, message, details);
    ReletsSane(s, FailServiceTask(s, x, worker, retries, message, details).0);
    hide Sane, Relets;
    if x == id && id in s.serviceTasks {
      var e := s.serviceTasks[id];
      var left := match retries case Some(r) => r case None => e.data.retries - 1;
      ReleasedShows(s, id, leases, Released(e, left, message, details));
      if leases != [] { EndedKeeps(leases, clock); }
    }
  }

  lemma RetryKeepsLeases(s: State, x: Uuid, retries: Option<int>, id: Uuid, leases: seq<Lease>, clock: Time)
    requires LeaseInvariant(s, id, leases, clock)
    ensures var (s', r) := RetryIncident(s, x, retries);
      LeaseInvariant(s', id, if x == id && leases != [] && r.Done? then Ended(leases) else leases, clock)
  {
    RetryRelets(s, x, retries);
    ReletsSane(s, RetryIncident(s, x, retries).0);
    hide Sane, Relets;
    if x == id && id in s.serviceTasks {
      var e := s.serviceTasks[id];
      var left := match retries case Some(r) => r case None => 3;
      ReleasedShows(s, id, leases, Released(e, left, None, None));
      if leases != [] { EndedKeeps(leases, clock); }
    }
  }

  lemma CallKeepsLeases(s: State, c: Call, id: Uuid, leases: seq<Lease>, clock: Time)
    requires LeaseInvariant(s, id, leases, clock) && clock <= ReadBy(c, clock)
    ensures LeaseInvariant(Apply(s, c), id, Record(leases, s, c, id), ReadBy(c, clock))
  {
    hide LeaseInvariant, FetchAndLock, ExtendLock, FailServiceTask, RetryIncident, Granted;
    match c
    case Fetch(worker, max, topics, duration, now, order) =>
      FetchKeepsLeases(s, worker, max, topics, duration, now, order, id, leases, clock);
    case Extend(x, worker, duration, now) => ExtendKeepsLeases(s, x, worker, duration, now, id, leases, clock);
    case ServiceFailed(x, worker, retries, message, details) =>
      FailureKeepsLeases(s, x, worker, retries, message, details, id, leases, clock);
    case Retry(x, retries) => RetryKeepsLeases(s, x, retries, id, leases, clock);
    case _ =>
      hide Apply;
      OtherCallKeepsLease(s, c, id, leases, clock);
  }

  ghost predicate SomeClock(s: State, id: Uuid, leases: seq<Lease>) {
    exists clock :: LeaseInvariant(s, id, leases, clock)
  }

  lemma {:induction false} RunKeepsLeases(s: State, calls: seq<Call>, id: Uuid, leases: seq<Lease>, clock: Time)
    requires LeaseInvariant(s, id, leases, clock) && ClockFrom(calls, clock)
    ensures SomeClock(RunCalls(s, calls), id, LeasesOver(leases, s, calls, id))
    decreases |calls|
  {
    hide LeaseInvariant, Apply, Record;
    if calls != [] {
      CallKeepsLeases(s, calls[0], id, leases, clock);
      RunKeepsLeases(Apply(s, calls[0]), calls[1..], id, Record(leases, s, calls[0], id), ReadBy(calls[0], clock));
    }
  }

  /** Over any run with a clock that does not run backwards, a lease on a task that was not given up by
      failure or incident retry ends before the next lease on the task begins, whoever gets it; and while
      the task is pending, the holder it shows is the worker of the last lease. */
  lemma LeasesNeverOverlap(s: State, calls: seq<Call>, id: Uuid, clock: Time)
    requires Sane(s) && ClockFrom(calls, clock)
    requires id in s.serviceTasks ==>
      s.serviceTasks[id].data.workerId.None? && s.serviceTasks[id].data.lockExpiration.None?
    ensures NoOverlap(LeasesOver([], s, calls, id)) && Shows(RunCalls(s, calls), id, LeasesOver([], s, calls, id))
  {
    RunKeepsLeases(s, calls, id, [], clock);
  }

  /** A worker whose task was granted again is turned away with the new holder's name, whatever it
      calls, and the state stays as it is. */
  lemma StaleWorkerIsFenced(s: State, calls: seq<Call>, id: Uuid, clock: Time, worker: string, extra: Variables,
      env: Env, retries: Option<int>, message: Option<string>, details: Option<string>, duration: int, now: Time,
      code: string)
    requires Sane(s) && ClockFrom(calls, clock)
    requires id in s.serviceTasks ==>
      s.serviceTasks[id].data.workerId.None? && s.serviceTasks[id].data.lockExpiration.None?
    requires var h := LeasesOver([], s, calls, id); h != [] && !h[|h| - 1].released && h[|h| - 1].worker != worker
    requires id in RunCalls(s, calls).serviceTasks
    ensures var s', h := RunCalls(s, calls), LeasesOver([], s, calls, id);
      var turnedAway := (s', Failed(ServiceTaskLocked(id, h[|h| - 1].worker)));
      && CompleteServiceTask(s', id, worker, extra, env) == turnedAway
      && FailServiceTask(s', id, worker, retries, message, details) == turnedAway
      && ExtendLock(s', id, worker, duration, now) == turnedAway
      && HandleBpmnError(s', id, worker, code, env) == turnedAway
  {
    LeasesNeverOverlap(s, calls, id, clock);
    RunPreserves(s, calls, b => true);
    hide RunCalls, LeasesOver, CompleteServiceTask, FailServiceTask, ExtendLock, HandleBpmnError;
    NonHolderIsFenced(RunCalls(s, calls), id, worker, extra, env, retries, message, details, duration, now, code);
  }

  // ---- What a lease does not protect ----

  /** Retries are not looked at: an incident can be fetched. */
  lemma IncidentsCanBeFetched(s: State, id: Uuid, worker: string, duration: int, now: Time)
    requires Sane(s) && id in s.serviceTasks && s.serviceTasks[id].data.retries <= 0
      && s.serviceTasks[id].data.lockExpiration.None?
    ensures var granted := FetchAndLock(s, worker, 1, [s.serviceTasks[id].data.topic], duration, now, [id]).1;
      |granted| == 1 && granted[0].id == id
  {
    var m, topics, until := s.serviceTasks, [s.serviceTasks[id].data.topic], now + duration;
    var e := Locked(m[id], worker, until);
    assert [id][0] == id && [id][1..] == [] && topics[0] in topics;
    assert LockTasks(m[id := e], [], worker, 0, topics, now, until).1 == [];
    assert LockTasks(m, [id], worker, 1, topics, now, until).1 == [e] + [];
  }

  /** An expired lease can be extended as long as nobody else has fetched the task. */
  lemma ExpiredLeaseCanBeExtended(s: State, id: Uuid, worker: string, duration: int, now: Time)
    requires HeldBy(s, id, worker) && s.serviceTasks[id].data.lockExpiration.Some?
      && s.serviceTasks[id].data.lockExpiration.value <= now
    ensures var (s', r) := ExtendLock(s, id, worker, duration, now);
      r.Done? && HeldBy(s', id, worker) && s'.serviceTasks[id].data.lockExpiration == Some(now + duration)
  {}
}
