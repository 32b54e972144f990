/** Service tasks are consumed at most once: over runs of whole calls, and under any interleaving of the
    atomic steps calls consist of (engine-core/src/engine/service_task.rs). */
module Consumption {
  import opened Values
  import opened EngineState
  import opened Executor
  import opened Operations
  import opened CallFrames
  import opened Runs
  import opened Evolution

  /** Consumed tasks are gone for good. */
  ghost predicate ConsumedOk(s: State) {
    NoDup(s.consumed) && forall id <- s.consumed :: id < s.nextId && id !in s.serviceTasks
  }

  lemma QuietKeepsConsumed(a: State, b: State)
    requires ConsumedOk(a) && Quiet(a, b)
    ensures ConsumedOk(b)
  {}

  lemma TakeKeepsConsumed(a: State, id: Uuid)
    requires Sane(a) && ConsumedOk(a) && id in a.serviceTasks
    ensures ConsumedOk(TakeServiceTask(a, id))
  {}

  lemma WaitsKeepConsumed(a: State, e: Entry<TimerInfo>, env: Env)
    requires ConsumedOk(a)
    ensures ConsumedOk(Reschedule(a, e, env))
    ensures forall id <- a.timers :: ConsumedOk(TimerCleared(a, id))
    ensures forall id <- a.catches :: ConsumedOk(CatchCleared(a, id))
  {}

  lemma MovesKeepConsumed(a: State, b: State)
    requires ConsumedOk(a) && Moves(a, b)
    ensures ConsumedOk(b) && a.consumed <= b.consumed
  {
    hide Sane, TimerCleared, CatchCleared, Reschedule, Quiet, ConsumedOk;
    if Quiet(a, b) {
      QuietKeepsConsumed(a, b);
      QuietHistory(a, b);
    } else if id, mid, env :| FiresTimer(a, b, id, mid, env) {
      WaitsKeepConsumed(a, a.timers[id], env);
      QuietKeepsConsumed(TimerCleared(a, id), mid);
      WaitsKeepConsumed(mid, a.timers[id], env);
      QuietHistory(TimerCleared(a, id), mid);
      WaitHistory(a, id, mid, env);
    } else if id :| FiresCatch(a, b, id) {
      var e :| true;
      WaitsKeepConsumed(a, e, Env(0, (x, y) => None, v => None, []));
      QuietKeepsConsumed(CatchCleared(a, id), b);
      QuietHistory(CatchCleared(a, id), b);
      CatchHistory(a, id);
    } else {
      var id :| Consumes(a, b, id);
      TakeKeepsConsumed(a, id);
      QuietKeepsConsumed(TakeServiceTask(a, id), b);
      QuietHistory(TakeServiceTask(a, id), b);
    }
  }

  lemma QuietHistory(a: State, b: State)
    requires Quiet(a, b)
    ensures b.consumed == a.consumed
  {}

  lemma WaitHistory(a: State, id: Uuid, mid: State, env: Env)
    requires id in a.timers
    ensures TimerCleared(a, id).consumed == a.consumed && Reschedule(mid, a.timers[id], env).consumed == mid.consumed
  {}

  lemma CatchHistory(a: State, id: Uuid)
    requires id in a.catches
    ensures CatchCleared(a, id).consumed == a.consumed
  {}

  lemma ReletsKeepConsumed(a: State, b: State)
    requires ConsumedOk(a) && Relets(a, b)
    ensures ConsumedOk(b) && b.consumed == a.consumed
  {}

  /** No service task is consumed twice, over any run. */
  lemma ConsumedAtMostOnce(s: State, calls: seq<Call>)
    requires Sane(s) && ConsumedOk(s)
    ensures ConsumedOk(RunCalls(s, calls)) && s.consumed <= RunCalls(s, calls).consumed
  {
    var inv := b => ConsumedOk(b) && s.consumed <= b.consumed;
    forall a, b | Moves(a, b) && inv(a) ensures inv(b) {
      MovesKeepConsumed(a, b);
    }
    forall a, b | Relets(a, b) && inv(a) ensures inv(b) {
      ReletsKeepConsumed(a, b);
    }
    RunPreserves(s, calls, inv);
  }

  /** The service task a call consumes: what gets past its guard. */
  function TakenBy(s: State, c: Call): Option<Uuid> {
    match c
    case ServiceDone(id, worker, _, _) =>
      if HeldBy(s, id, worker) && !IsSuspended(s, s.serviceTasks[id].instanceId) then Some(id) else None
    case Resolve(id, _, _) => if id in s.serviceTasks && s.serviceTasks[id].data.retries <= 0 then Some(id) else None
    case Error(id, worker, _, _) => if HeldBy(s, id, worker) then Some(id) else None
    case _ => None
  }

  lemma TakenIsRecorded(s: State, c: Call)
    requires Sane(s) && TakenBy(s, c).Some?
    ensures Apply(s, c).consumed == s.consumed + [TakenBy(s, c).value]
  {
    hide CompleteServiceTask, ResolveIncident, HandleBpmnError, Sane;
    match c
    case ServiceDone(id, worker, extra, env) => CompleteServiceTaskFrame(s, id, worker, extra, env);
    case Resolve(id, extra, env) => ResolveIncidentFrame(s, id, extra, env);
    case Error(id, worker, code, env) => HandleBpmnErrorFrame(s, id, worker, code, env);
  }

  /** Of completion, resolution and error reports, at most one call of a run consumes a given task. */
  lemma OneCallConsumes(s: State, calls: seq<Call>, p: nat, q: nat)
    requires Sane(s) && ConsumedOk(s) && p < q < |calls| && TakenBy(RunCalls(s, calls[..p]), calls[p]).Some?
    ensures TakenBy(RunCalls(s, calls[..q]), calls[q]) != TakenBy(RunCalls(s, calls[..p]), calls[p])
  {
    var sp, between := RunCalls(s, calls[..p]), calls[p..q];
    RunPreserves(s, calls[..p], b => true);
    ConsumedAtMostOnce(s, calls[..p]);
    TakenIsRecorded(sp, calls[p]);
    RunInTwo(s, calls[..q], p);
    assert calls[..q][..p] == calls[..p] && calls[..q][p..] == between;
    assert between[0] == calls[p] && [between[0]] + between[1..] == between;
    var id := TakenBy(sp, calls[p]).value;
    hide Apply, Sane, ConsumedOk;
    ConsumedAtMostOnce(sp, [calls[p]]);
    assert RunCalls(sp, [calls[p]]) == Apply(sp, calls[p]) by {
      assert [calls[p]][1..] == [];
      assert RunCalls(Apply(sp, calls[p]), []) == Apply(sp, calls[p]);
    }
    CallSane(sp, calls[p]);
    ConsumedAtMostOnce(Apply(sp, calls[p]), between[1..]);
    assert id in Apply(sp, calls[p]).consumed;
    var sq := RunCalls(s, calls[..q]);
    assert sq == RunCalls(Apply(sp, calls[p]), between[1..]);
    ConsumedNotPending(sq, id);
  }

  lemma CallSane(s: State, c: Call)
    requires Sane(s)
    ensures Sane(Apply(s, c))
  {
    if LeaseCall(c) {
      LeaseCallRelets(s, c);
      ReletsSane(s, Apply(s, c));
    } else {
      CallPreserves(s, c, b => true);
    }
  }

  lemma ConsumedNotPending(s: State, id: Uuid)
    requires ConsumedOk(s) && id in s.consumed
    ensures id !in s.serviceTasks
  {}
}

/** The atomic steps of concurrent calls on the map of service tasks. A call takes its task with
    `remove_if`, and then either goes through or puts the task back because the instance is suspended;
    other calls run in between. */
module ConsumeRace {
  import opened Values
  import opened EngineState

  type Tasks = map<Uuid, Entry<ServiceInfo>>

  datatype Guard = HeldByWorker(worker: string) | IsIncident {
    predicate Admits(e: Entry<ServiceInfo>) {
      match this
      case HeldByWorker(worker) => e.data.workerId == Some(worker)
      case IsIncident => e.data.retries <= 0
    }
  }

  /** How far a caller has come. */
  datatype Phase = Idle | InFlight(task: Entry<ServiceInfo>) | Through(id: Uuid) | TurnedAway

  datatype Race = Race(pending: Tasks, callers: seq<Phase>)

  datatype Step =
    | Take(caller: nat, id: Uuid, guard: Guard)
    | PutBack(caller: nat)
    | GoThrough(caller: nat)
    | Change(id: Uuid, data: ServiceInfo)

  function Apply(r: Race, step: Step): Race {
    match step
    case Take(c, id, guard) =>
      if c >= |r.callers| || !r.callers[c].Idle? then r
      else if id in r.pending && guard.Admits(r.pending[id])
      then Race(r.pending - {id}, r.callers[c := InFlight(r.pending[id])])
      else r.(callers := r.callers[c := TurnedAway])
    case PutBack(c) =>
      if c < |r.callers| && r.callers[c].InFlight?
      then Race(r.pending[r.callers[c].task.id := r.callers[c].task], r.callers[c := TurnedAway]) else r
    case GoThrough(c) =>
      if c < |r.callers| && r.callers[c].InFlight? then r.(callers := r.callers[c := Through(r.callers[c].task.id)])
        else r
    case Change(id, data) =>
      if id in r.pending then r.(pending := r.pending[id := r.pending[id].(data := data)]) else r
  }

  function RunSteps(r: Race, steps: seq<Step>): Race
    decreases |steps|
  {
    if steps == [] then r else RunSteps(Apply(r, steps[0]), steps[1..])
  }

  /** The task a caller has in hand or has consumed. */
  function TaskOf(p: Phase): Option<Uuid> {
    match p
    case InFlight(task) => Some(task.id)
    case Through(id) => Some(id)
    case _ => None
  }

  /** A task is in the map, or with one caller, or gone: never in two places. */
  ghost predicate OnePlace(r: Race) {
    && (forall id <- r.pending :: r.pending[id].id == id)
    && (forall c :: 0 <= c < |r.callers| && TaskOf(r.callers[c]).Some? ==> TaskOf(r.callers[c]).value !in r.pending)
    && (forall c, d :: 0 <= c < d < |r.callers| && TaskOf(r.callers[c]).Some? ==>
       TaskOf(r.callers[c]) != TaskOf(r.callers[d]))
  }

  lemma StepKeepsOnePlace(r: Race, step: Step)
    requires OnePlace(r)
    ensures OnePlace(Apply(r, step))
  {
    var r' := Apply(r, step);
    match step
    case Take(c, id, guard) =>
      if c < |r.callers| && r.callers[c].Idle? && id in r.pending && guard.Admits(r.pending[id]) {
        forall d | 0 <= d < |r.callers| && d != c ensures TaskOf(r'.callers[d]) == TaskOf(r.callers[d]) {}
      }
    case PutBack(c) =>
      if c < |r.callers| && r.callers[c].InFlight? {
        var id := r.callers[c].task.id;
        assert TaskOf(r.callers[c]) == Some(id);
        assert forall d :: 0 <= d < |r.callers| && d != c ==> TaskOf(r'.callers[d]) == TaskOf(r.callers[d]);
      }
    case GoThrough(c) =>
      if c < |r.callers| && r.callers[c].InFlight? {
        forall d | 0 <= d < |r.callers| ensures TaskOf(r'.callers[d]) == TaskOf(r.callers[d]) {}
      }
    case Change(_, _) =>
  }

  /** Under any interleaving, at most one caller gets through with a given task. */
  lemma {:induction false} AtMostOneGoesThrough(r: Race, steps: seq<Step>, c: nat, d: nat)
    requires OnePlace(r)
    ensures var r' := RunSteps(r, steps);
      OnePlace(r') && (c < d < |r'.callers| && r'.callers[c].Through? && r'.callers[d].Through? ==>
        r'.callers[c].id != r'.callers[d].id)
    decreases |steps|
  {
    if steps == [] {
      if c < d < |r.callers| {
        assert TaskOf(r.callers[c]).Some? ==> TaskOf(r.callers[c]) != TaskOf(r.callers[d]);
      }
    } else {
      StepKeepsOnePlace(r, steps[0]);
      AtMostOneGoesThrough(Apply(r, steps[0]), steps[1..], c, d);
    }
  }

  /** The step is not one of caller `c`. */
  predicate OfOthers(step: Step, c: nat) {
    match step
    case Take(d, _, _) => d != c
    case PutBack(d) => d != c
    case GoThrough(d) => d != c
    case Change(_, _) => true
  }

  lemma {:induction false} InFlightStays(r: Race, steps: seq<Step>, c: nat)
    requires OnePlace(r) && c < |r.callers| && r.callers[c].InFlight? && forall step <- steps :: OfOthers(step, c)
    ensures var r' := RunSteps(r, steps);
      OnePlace(r') && |r'.callers| == |r.callers| && r'.callers[c] == r.callers[c]
        && r.callers[c].task.id !in r'.pending
    decreases |steps|
  {
    if steps == [] {
      assert TaskOf(r.callers[c]).Some?;
    } else {
      assert steps[0] in steps && forall step <- steps[1..] :: step in steps;
      StepKeepsOnePlace(r, steps[0]);
      InFlightStays(Apply(r, steps[0]), steps[1..], c);
    }
  }

  /** Whatever other callers do while a task is in flight: when it is put back, the map has it as it was
      taken, and everything the others did to other tasks. */
  lemma PutBackRestores(r: Race, c: nat, id: Uuid, guard: Guard, steps: seq<Step>)
    requires OnePlace(r) && c < |r.callers| && r.callers[c].Idle? && id in r.pending && guard.Admits(r.pending[id])
    requires forall step <- steps :: OfOthers(step, c)
    ensures var between := RunSteps(Apply(r, Take(c, id, guard)), steps);
      id !in between.pending && Apply(between, PutBack(c)).pending == between.pending[id := r.pending[id]]
  {
    var taken := Apply(r, Take(c, id, guard));
    StepKeepsOnePlace(r, Take(c, id, guard));
    InFlightStays(taken, steps, c);
  }

  /** While a task is in flight, another caller of it is told it does not exist. */
  lemma InFlightLooksGone(r: Race, c: nat, d: nat, id: Uuid, guard: Guard, other: Guard)
    requires OnePlace(r) && c < |r.callers| && d < |r.callers| && c != d && r.callers[c].Idle? && r.callers[d].Idle?
    requires id in r.pending && guard.Admits(r.pending[id])
    ensures var r' := Apply(r, Take(c, id, guard));
      id !in r'.pending && Apply(r', Take(d, id, other)).callers[d].TurnedAway?
  {}
}
