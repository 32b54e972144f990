/** Two-stage persistence of one pending map (engine-core/src/engine/persistence_ops.rs, retry_queue.rs):
    inline attempts first, then a background worker that takes failed jobs in order and writes what
    memory holds by then. */
module Persistence {
  import opened Values

  /** Inline attempts after the first. */
  const INLINE_RETRIES: nat := 2
  const MAX_RETRIES: nat := 50
  const INITIAL_BACKOFF_MS: nat := 1_000
  const MAX_BACKOFF_MS: nat := 60_000

  /** How one write to the store ends. A write that reports an error may have reached the store. */
  datatype Attempt = Succeeded | Lost | AppliedButFailed {
    predicate Reaches() {
      !Lost?
    }
  }

  datatype Job = SaveJob(id: Uuid) | DeleteJob(id: Uuid) | Shutdown

  /** A job the worker is done with; one that is not `ok` was counted as a permanent failure. */
  datatype Handled = Handled(job: Job, ok: bool)

  /** The store after a write that reached it: a value saved, or the entry deleted. */
  function Stored<V>(store: map<Uuid, V>, id: Uuid, value: Option<V>): map<Uuid, V> {
    match value
    case Some(v) => store[id := v]
    case None => store - {id}
  }

  function Lookup<V>(m: map<Uuid, V>, id: Uuid): Option<V> {
    if id in m then Some(m[id]) else None
  }

  function Attempted<V>(store: map<Uuid, V>, id: Uuid, value: Option<V>, a: Attempt): map<Uuid, V> {
    if a.Reaches() then Stored(store, id, value) else store
  }

  /** `inline_retry!` from attempt `k` on; answers whether an attempt succeeded. */
  function InlineWrite<V>(store: map<Uuid, V>, id: Uuid, value: Option<V>, io: nat -> Attempt, k: nat)
    : (map<Uuid, V>, bool)
    decreases INLINE_RETRIES - k
  {
    var store' := Attempted(store, id, value, io(k));
    if io(k).Succeeded? then (store', true)
    else if k < INLINE_RETRIES then InlineWrite(store', id, value, io, k + 1)
    else (store', false)
  }

  /** What a job writes: a save job reads memory when it runs, and skips an entry that has gone. */
  function JobWrites<V>(memory: map<Uuid, V>, job: Job): Option<(Uuid, Option<V>)> {
    match job
    case SaveJob(id) => if id in memory then Some((id, Some(memory[id]))) else None
    case DeleteJob(id) => Some((id, None))
    case Shutdown => None
  }

  /** One attempt of `execute_job`. */
  function Execute<V>(memory: map<Uuid, V>, store: map<Uuid, V>, job: Job, a: Attempt): (map<Uuid, V>, bool) {
    match JobWrites(memory, job)
    case Some((id, value)) => (Attempted(store, id, value, a), a.Succeeded?)
    case None => (store, true)
  }

  // ---- Memory, store and queue over a run ----

  /** `tries` counts the attempts at the head of the queue; `dead` are the ids removed from memory;
      `sent`, `done` and `dropped` record every job sent, every job the worker is done with, and every
      job that was lost because the worker had stopped. */
  datatype Sync<V> = Sync(
    memory: map<Uuid, V>,
    store: map<Uuid, V>,
    queue: seq<Job>,
    tries: nat,
    running: bool,
    dead: set<Uuid>,
    sent: seq<Job>,
    done: seq<Handled>,
    dropped: seq<Job>)

  /** A change of memory with its persist call, a shutdown request, or one attempt of the worker. */
  datatype Step<V> =
    | Put(id: Uuid, value: V, io: nat -> Attempt)
    | Remove(id: Uuid, io: nat -> Attempt)
    | Stop
    | Work(attempt: Attempt)

  /** `enqueue_retry`: once the worker has left its loop the channel is closed and the job is lost. */
  function Send<V>(s: Sync<V>, job: Job): Sync<V> {
    if s.running then s.(queue := s.queue + [job], sent := s.sent + [job])
    else s.(sent := s.sent + [job], dropped := s.dropped + [job])
  }

  /** The head of the queue is done with. */
  function Pop<V>(s: Sync<V>, ok: bool): Sync<V>
    requires s.queue != []
  {
    s.(queue := s.queue[1..], tries := 0, done := s.done + [Handled(s.queue[0], ok)])
  }

  /** The worker leaves its loop at a shutdown request; what stands behind it is lost. */
  function Exit<V>(s: Sync<V>): Sync<V>
    requires s.queue != []
  {
    Pop(s, true).(running := false, queue := [], dropped := s.dropped + s.queue[1..])
  }

  /** Ids are never used again after they were removed. */
  function Apply<V>(s: Sync<V>, step: Step<V>): Sync<V> {
    match step
    case Put(id, value, io) =>
      if id in s.dead then s
      else
        var (store, ok) := InlineWrite(s.store, id, Some(value), io, 0);
        var s' := s.(memory := s.memory[id := value], store := store);
        if ok then s' else Send(s', SaveJob(id))
    case Remove(id, io) =>
      if id !in s.memory then s
      else
        var (store, ok) := InlineWrite(s.store, id, None, io, 0);
        var s' := s.(memory := s.memory - {id}, store := store, dead := s.dead + {id});
        if ok then s' else Send(s', DeleteJob(id))
    case Stop => Send(s, Shutdown)
    case Work(a) =>
      if !s.running || s.queue == [] then s
      else if s.queue[0].Shutdown? then Exit(s)
      else
        var (store, ok) := Execute(s.memory, s.store, s.queue[0], a);
        var s' := s.(store := store);
        if ok then Pop(s', true)
        else if s.tries + 1 >= MAX_RETRIES then Pop(s', false)
        else s'.(tries := s.tries + 1)
  }

  function RunSteps<V>(s: Sync<V>, steps: seq<Step<V>>): Sync<V>
    decreases |steps|
  {
    if steps == [] then s else RunSteps(Apply(s, steps[0]), steps[1..])
  }

  // ---- Convergence ----

  /** The jobs the worker will come to: those before the first shutdown request. */
  function Live(queue: seq<Job>): seq<Job> {
    if queue == [] || queue[0].Shutdown? then [] else [queue[0]] + Live(queue[1..])
  }

  /** The worker has stopped or will stop before it comes to a job sent now. */
  predicate Closing<V>(s: Sync<V>) {
    !s.running || Shutdown in s.queue
  }

  /** The job that makes the store agree with memory on `id`. */
  function RepairOf<V>(memory: map<Uuid, V>, id: Uuid): Job {
    if id in memory then SaveJob(id) else DeleteJob(id)
  }

  ghost predicate Agree<V(!new)>(s: Sync<V>, id: Uuid) {
    Lookup(s.store, id) == Lookup(s.memory, id)
  }

  /** The worker will come to this job, or gave it up as a permanent failure. */
  ghost predicate Known<V>(s: Sync<V>, job: Job) {
    job in Live(s.queue) || Handled(job, false) in s.done
  }

  ghost predicate AccountedAt<V(!new)>(s: Sync<V>, id: Uuid) {
    Agree(s, id) || Known(s, RepairOf(s.memory, id))
  }

  /** Wherever store and memory disagree, the worker will come to a job that repairs it, or that job was
      counted as a failure. */
  ghost predicate Accounted<V(!new)>(s: Sync<V>) {
    forall id :: AccountedAt(s, id)
  }

  /** Deletions are queued for removed ids only, removed ids stay away from memory, and a worker that
      stopped left no queue. */
  ghost predicate Tidy<V(!new)>(s: Sync<V>) {
    && (forall id <- s.dead :: id !in s.memory)
    && (forall job <- s.queue :: job.DeleteJob? ==> job.id in s.dead)
    && (!s.running ==> s.queue == [])
  }

  /** One of the inline attempts reaches the store. */
  predicate Reaches(io: nat -> Attempt) {
    io(0).Reaches() || io(1).Reaches() || io(2).Reaches()
  }

  /** One of the inline attempts succeeds. */
  predicate Succeeds(io: nat -> Attempt) {
    io(0).Succeeded? || io(1).Succeeded? || io(2).Succeeded?
  }

  /** What the three inline attempts do to the store. */
  lemma InlineWriteIs<V>(store: map<Uuid, V>, id: Uuid, value: Option<V>, io: nat -> Attempt)
    ensures var (store', ok) := InlineWrite(store, id, value, io, 0);
      && (ok <==> Succeeds(io))
      && (forall x :: x != id ==> Lookup(store', x) == Lookup(store, x))
      && Lookup(store', id) == if Reaches(io) then value else Lookup(store, id)
  {
    var s1 := Attempted(store, id, value, io(0));
    var s2 := Attempted(s1, id, value, io(1));
    assert InlineWrite(s2, id, value, io, 2) == (Attempted(s2, id, value, io(2)), io(2).Succeeded?);
    assert !io(1).Succeeded? ==> InlineWrite(s1, id, value, io, 1) == InlineWrite(s2, id, value, io, 2);
    assert !io(0).Succeeded? ==> InlineWrite(store, id, value, io, 0) == InlineWrite(s1, id, value, io, 1);
  }

  lemma {:induction false} LiveAppend(queue: seq<Job>, job: Job)
    ensures Live(queue + [job]) == if Shutdown in queue || job.Shutdown? then Live(queue) else Live(queue) + [job]
    ensures forall j <- Live(queue) :: j in queue && !j.Shutdown?
    decreases |queue|
  {
    if queue == [] {
      assert [] + [job] == [job];
    } else {
      assert (queue + [job])[1..] == queue[1..] + [job];
      assert queue == [queue[0]] + queue[1..];
      LiveAppend(queue[1..], job);
    }
  }

  /** The new value of `id` is in the store when the write is over, or the worker knows it is not. */
  predicate Noticed<V(==)>(s: Sync<V>, id: Uuid, value: Option<V>, io: nat -> Attempt) {
    var job := if value.Some? then SaveJob(id) else DeleteJob(id);
    || Reaches(io) || Lookup(s.store, id) == value
    || job in Live(s.queue) || Handled(job, false) in s.done
  }

  /** A step the promise covers: as long as no shutdown was requested, every one. After that, changes
      whose inline write reaches the store, or whose repair was queued before the shutdown or counted. */
  predicate Covered<V(==)>(s: Sync<V>, step: Step<V>) {
    match step
    case Put(id, value, io) => id in s.dead || !Closing(s) || Noticed(s, id, Some(value), io)
    case Remove(id, io) => id !in s.memory || !Closing(s) || Noticed(s, id, None, io)
    case Stop => true
    case Work(_) => true
  }

  lemma SentIsKnown<V>(s: Sync<V>, job: Job, other: Job)
    requires !job.Shutdown? && !other.Shutdown? && (!s.running ==> s.queue == [])
    ensures Known(Send(s, job), other) <==> Known(s, other) || (other == job && !Closing(s))
  {
    LiveAppend(s.queue, job);
  }

  /** The step changes this id in memory. */
  predicate Changes<V(==)>(s: Sync<V>, step: Step<V>, id: Uuid) {
    match step
    case Put(x, _, _) => x == id && x !in s.dead
    case Remove(x, _) => x == id && x in s.memory
    case Stop => false
    case Work(_) => false
  }

  /** Store and memory disagree on `id`, and no job will ever repair it unless `id` changes again. */
  ghost predicate Forgotten<V(!new)>(s: Sync<V>, id: Uuid) {
    !AccountedAt(s, id) && Closing(s)
  }

  lemma PutDecides<V(!new)>(s: Sync<V>, id: Uuid, value: V, io: nat -> Attempt, x: Uuid)
    requires Tidy(s) && id !in s.dead
    ensures var s' := Apply(s, Put(id, value, io));
      && (x == id ==> if Covered(s, Put(id, value, io)) then AccountedAt(s', x) else Forgotten(s', x))
      && (x != id ==> (AccountedAt(s', x) <==> AccountedAt(s, x)) && (Closing(s) ==> Closing(s')))
  {
    InlineWriteIs(s.store, id, Some(value), io);
    hide InlineWrite, Live;
    var s' := Apply(s, Put(id, value, io));
    var s1 := s.(memory := s'.memory, store := s'.store);
    assert s' == if Succeeds(io) then s1 else Send(s1, SaveJob(id));
    SentIsKnown(s1, SaveJob(id), RepairOf(s1.memory, x));
  }

  lemma RemoveDecides<V(!new)>(s: Sync<V>, id: Uuid, io: nat -> Attempt, x: Uuid)
    requires Tidy(s) && id in s.memory
    ensures var s' := Apply(s, Remove(id, io));
      && (x == id ==> if Covered(s, Remove(id, io)) then AccountedAt(s', x) else Forgotten(s', x))
      && (x != id ==> (AccountedAt(s', x) <==> AccountedAt(s, x)) && (Closing(s) ==> Closing(s')))
  {
    InlineWriteIs(s.store, id, None, io);
    hide InlineWrite, Live;
    var s' := Apply(s, Remove(id, io));
    var s1 := s.(memory := s'.memory, store := s'.store, dead := s'.dead);
    assert s' == if Succeeds(io) then s1 else Send(s1, DeleteJob(id));
    SentIsKnown(s1, DeleteJob(id), RepairOf(s1.memory, x));
  }

  /** An attempt at a job leaves the store right where it was right, and a successful one repairs it. Only
      the job that repairs an id can make it right. */
  lemma ExecuteRepairs<V(!new)>(s: Sync<V>, a: Attempt, x: Uuid)
    requires Tidy(s) && s.queue != []
    ensures var (store, ok) := Execute(s.memory, s.store, s.queue[0], a); var s' := s.(store := store);
      && (Agree(s, x) ==> Agree(s', x))
      && (ok && s.queue[0] == RepairOf(s.memory, x) ==> Agree(s', x))
      && (s.queue[0] != RepairOf(s.memory, x) ==> (Agree(s', x) <==> Agree(s, x)))
  {
    assert s.queue[0] in s.queue;
  }

  lemma WorkDecides<V(!new)>(s: Sync<V>, a: Attempt, x: Uuid)
    requires Tidy(s)
    ensures var s' := Apply(s, Work(a));
      (AccountedAt(s, x) ==> AccountedAt(s', x)) && (Forgotten(s, x) ==> Forgotten(s', x))
  {
    if s.running && s.queue != [] {
      var s', head := Apply(s, Work(a)), s.queue[0];
      assert s.queue == [head] + s.queue[1..];
      ExecuteRepairs(s, a, x);
      hide Execute;
      assert Live(s.queue) == if head.Shutdown? then [] else [head] + Live(s.queue[1..]);
      assert s'.done == s.done || s'.done == s.done + [Handled(head, true)]
        || s'.done == s.done + [Handled(head, false)];
    }
  }

  lemma StopDecides<V(!new)>(s: Sync<V>, x: Uuid)
    requires Tidy(s)
    ensures var s' := Apply(s, Stop);
      (AccountedAt(s, x) ==> AccountedAt(s', x)) && (Forgotten(s, x) ==> Forgotten(s', x))
  {
    LiveAppend(s.queue, Shutdown);
    hide Live;
  }

  /** A change of an id decides what becomes of it; every other step keeps what was decided. */
  lemma StepDecides<V(!new)>(s: Sync<V>, step: Step<V>, x: Uuid)
    requires Tidy(s)
    ensures var s' := Apply(s, step);
      if Changes(s, step, x) then (if Covered(s, step) then AccountedAt(s', x) else Forgotten(s', x))
      else (AccountedAt(s, x) ==> AccountedAt(s', x)) && (Forgotten(s, x) ==> Forgotten(s', x))
  {
    match step
    case Put(id, value, io) =>
      if id !in s.dead {
        PutDecides(s, id, value, io, x);
      }
      hide InlineWrite, AccountedAt, Tidy, Noticed;
    case Remove(id, io) =>
      if id in s.memory {
        RemoveDecides(s, id, io, x);
      }
      hide InlineWrite, AccountedAt, Tidy, Noticed;
    case Stop => StopDecides(s, x);
    case Work(a) => WorkDecides(s, a, x);
  }

  lemma StepTidy<V(!new)>(s: Sync<V>, step: Step<V>)
    requires Tidy(s)
    ensures Tidy(Apply(s, step))
  {
    hide InlineWrite, Execute;
    if s.queue != [] {
      assert forall job <- s.queue[1..] :: job in s.queue;
    }
  }

  lemma StepAccounts<V(!new)>(s: Sync<V>, step: Step<V>)
    requires Accounted(s) && Tidy(s)
    ensures Tidy(Apply(s, step)) && (Accounted(Apply(s, step)) <==> Covered(s, step))
  {
    hide Apply, AccountedAt, Tidy, Noticed;
    StepTidy(s, step);
    forall x ensures AccountedAt(s, x)
      ensures if Changes(s, step, x) then (AccountedAt(Apply(s, step), x) <==> Covered(s, step))
        else AccountedAt(Apply(s, step), x)
    {
      StepDecides(s, step, x);
    }
    if !Covered(s, step) {
      assert Changes(s, step, step.id);
    }
  }

  /** Every disagreement is accounted for at every moment of the run. */
  ghost predicate AlwaysAccounted<V(!new)>(s: Sync<V>, steps: seq<Step<V>>)
    decreases |steps|
  {
    Accounted(s) && (steps != [] ==> AlwaysAccounted(Apply(s, steps[0]), steps[1..]))
  }

  predicate AllCovered<V(==)>(s: Sync<V>, steps: seq<Step<V>>)
    decreases |steps|
  {
    steps == [] || (Covered(s, steps[0]) && AllCovered(Apply(s, steps[0]), steps[1..]))
  }

  /** Over any run of memory changes with their persist calls, worker attempts and shutdowns, whatever
      each write to the store does: at every moment every id on which store and memory disagree has a
      job to come that repairs it, or a permanent failure that was counted, exactly when no change after
      a shutdown request misses the store unnoticed. */
  lemma {:induction false} DisagreementIsAccountedFor<V(!new)>(s: Sync<V>, steps: seq<Step<V>>)
    requires Accounted(s) && Tidy(s)
    ensures AlwaysAccounted(s, steps) <==> AllCovered(s, steps)
    ensures AllCovered(s, steps) ==> Accounted(RunSteps(s, steps)) && Tidy(RunSteps(s, steps))
    decreases |steps|
  {
    hide Apply, Accounted, Tidy, Covered;
    if steps != [] {
      StepAccounts(s, steps[0]);
      if Covered(s, steps[0]) {
        DisagreementIsAccountedFor(Apply(s, steps[0]), steps[1..]);
      }
    }
  }

  /** No shutdown is requested in the run. */
  ghost predicate NeverStops<V>(steps: seq<Step<V>>) {
    forall step <- steps :: !step.Stop?
  }

  lemma {:induction false} NeverStopsIsCovered<V(!new)>(s: Sync<V>, steps: seq<Step<V>>)
    requires NeverStops(steps) && !Closing(s)
    ensures AllCovered(s, steps)
    decreases |steps|
  {
    if steps != [] {
      assert steps[0] in steps && forall step <- steps[1..] :: step in steps;
      var s' := Apply(s, steps[0]);
      assert !Closing(s') by {
        hide InlineWrite, Execute;
        if s.queue != [] {
          assert s.queue[0] in s.queue && forall job <- s.queue[1..] :: job in s.queue;
        }
      }
      hide Apply;
      NeverStopsIsCovered(s', steps[1..]);
    }
  }

  ghost predicate Empty<V>(s: Sync<V>) {
    s == Sync(map[], map[], [], 0, true, {}, [], [], [])
  }

  lemma AgreeEverywhere<V(!new)>(s: Sync<V>)
    ensures (forall id :: Agree(s, id)) <==> s.store == s.memory
  {
    if forall id :: Agree(s, id) {
      assert forall id :: id in s.store <==> Lookup(s.store, id).Some?;
      assert forall id :: id in s.memory <==> Lookup(s.memory, id).Some?;
      forall id ensures Lookup(s.store, id) == Lookup(s.memory, id) {
        assert Agree(s, id);
      }
    }
  }

  /** The last step of the run that changes `id` is covered; `before` stands for those before the run. */
  predicate LastCovered<V(==)>(s: Sync<V>, steps: seq<Step<V>>, id: Uuid, before: bool)
    decreases |steps|
  {
    if steps == [] then before
    else LastCovered(Apply(s, steps[0]), steps[1..], id, if Changes(s, steps[0], id) then Covered(s, steps[0])
         else before)
  }

  lemma {:induction false} LastChangeDecides<V(!new)>(s: Sync<V>, steps: seq<Step<V>>, id: Uuid, before: bool)
    requires Tidy(s) && if before then AccountedAt(s, id) else Forgotten(s, id)
    ensures AccountedAt(RunSteps(s, steps), id) <==> LastCovered(s, steps, id, before)
    decreases |steps|
  {
    hide Apply, AccountedAt, Tidy, Covered, Changes, Closing;
    if steps != [] {
      StepTidy(s, steps[0]);
      StepDecides(s, steps[0], id);
      LastChangeDecides(Apply(s, steps[0]), steps[1..], id, if Changes(s, steps[0], id) then Covered(s, steps[0])
        else before);
    }
  }

  /** When nothing is queued and nothing failed for good, store and memory agree on an id exactly when the
      last step that changed it is covered. They are equal exactly when this holds of every id: always when
      no shutdown was requested. */
  lemma StoreConverges<V(!new)>(s: Sync<V>, steps: seq<Step<V>>)
    requires Empty(s)
    requires RunSteps(s, steps).queue == [] && forall h <- RunSteps(s, steps).done :: h.ok
    ensures forall id :: Agree(RunSteps(s, steps), id) <==> LastCovered(s, steps, id, true)
    ensures RunSteps(s, steps).store == RunSteps(s, steps).memory <==> forall id :: LastCovered(s, steps, id, true)
    ensures NeverStops(steps) || AllCovered(s, steps) ==> RunSteps(s, steps).store == RunSteps(s, steps).memory
  {
    if NeverStops(steps) {
      NeverStopsIsCovered(s, steps);
    }
    assert forall id :: Agree(s, id);
    DisagreementIsAccountedFor(s, steps);
    var s' := RunSteps(s, steps);
    AgreeEverywhere(s');
    hide RunSteps, AllCovered, LastCovered;
    forall id ensures Agree(s', id) <==> AccountedAt(s', id)
      ensures AccountedAt(s', id) <==> LastCovered(s, steps, id, true)
    {
      LastChangeDecides(s, steps, id, true);
    }
  }

  /** A run that loses an entry: the worker stops, then the three inline writes of a new entry are lost.
      Its job is dropped; nothing is queued, nothing was counted as a permanent failure, and the store
      does not have the entry. */
  lemma EntryLostAfterShutdown<V(!new)>(s: Sync<V>, id: Uuid, value: V, io: nat -> Attempt)
    requires Empty(s) && !Reaches(io)
    ensures var s' := RunSteps(s, [Stop, Work(Succeeded), Put(id, value, io)]);
      && s'.memory == map[id := value] && s'.store == map[] && s'.queue == [] && s'.dropped == [SaveJob(id)]
      && (forall h <- s'.done :: h.ok) && !Accounted(s')
  {
    var put := Put(id, value, io);
    var s1 := Apply(s, Stop);
    var s2 := Apply(s1, Work(Succeeded));
    var s3 := Apply(s2, put);
    assert s1.queue == [Shutdown] && s2.queue == [];
    InlineWriteIs(s.store, id, Some(value), io);
    assert !AccountedAt(s3, id);
    assert s3.store == map[] by {
      assert forall x :: Lookup(s3.store, x) == None;
      assert forall x :: x in s3.store <==> Lookup(s3.store, x).Some?;
    }
    assert [Stop, Work(Succeeded), put][1..] == [Work(Succeeded), put] && [Work(Succeeded), put][1..] == [put]
      && [put][1..] == [];
    assert RunSteps(s2, [put]) == s3;
    assert RunSteps(s1, [Work(Succeeded), put]) == s3;
  }

  // ---- The worker hands over every job it was sent before it stops ----

  function JobsOf(done: seq<Handled>): seq<Job> {
    if done == [] then [] else JobsOf(done[..|done| - 1]) + [done[|done| - 1].job]
  }

  /** Jobs are handled in the order they were sent, the worker stops at the first shutdown, and jobs are
      dropped only after that. */
  ghost predicate InOrder<V>(s: Sync<V>) {
    && s.sent == JobsOf(s.done) + s.queue + s.dropped
    && (s.running ==> s.dropped == [] && forall h <- s.done :: !h.job.Shutdown?)
    && (!s.running ==> s.queue == [] && s.done != [] && s.done[|s.done| - 1].job.Shutdown?)
    && (!s.running ==> forall k :: 0 <= k < |s.done| - 1 ==> !s.done[k].job.Shutdown?)
  }

  lemma JobsOfAppend(done: seq<Handled>, h: Handled)
    ensures JobsOf(done + [h]) == JobsOf(done) + [h.job]
  {
    assert (done + [h])[..|done + [h]| - 1] == done;
  }

  lemma {:induction false} JobsOfSize(done: seq<Handled>)
    ensures |JobsOf(done)| == |done| && forall k :: 0 <= k < |done| ==> JobsOf(done)[k] == done[k].job
    decreases |done|
  {
    if done != [] {
      JobsOfSize(done[..|done| - 1]);
    }
  }

  lemma PopKeepsOrder<V>(s: Sync<V>, ok: bool)
    requires InOrder(s) && s.running && s.queue != []
    ensures !s.queue[0].Shutdown? ==> InOrder(Pop(s, ok))
    ensures s.queue[0].Shutdown? ==> InOrder(Exit(s))
  {
    JobsOfAppend(s.done, Handled(s.queue[0], ok));
    JobsOfAppend(s.done, Handled(s.queue[0], true));
    assert s.queue == [s.queue[0]] + s.queue[1..];
    assert s.sent == JobsOf(Pop(s, ok).done) + s.queue[1..];
    hide JobsOf;
  }

  lemma SendKeepsOrder<V>(s: Sync<V>, job: Job)
    requires InOrder(s)
    ensures InOrder(Send(s, job))
  {
    var s' := Send(s, job);
    assert s'.sent == JobsOf(s'.done) + s'.queue + s'.dropped;
  }

  /** Memory and store do not matter for the order of jobs. */
  lemma OrderOfJobsOnly<V>(s: Sync<V>, s': Sync<V>)
    requires InOrder(s) && s'.sent == s.sent && s'.done == s.done && s'.queue == s.queue && s'.running == s.running
    requires s'.dropped == s.dropped
    ensures InOrder(s')
  {}

  lemma StepKeepsOrder<V>(s: Sync<V>, step: Step<V>)
    requires InOrder(s)
    ensures InOrder(Apply(s, step))
  {
    hide InOrder, InlineWrite, Execute;
    match step
    case Put(id, value, io) =>
      var s1 := s.(memory := s.memory[id := value], store := InlineWrite(s.store, id, Some(value), io, 0).0);
      OrderOfJobsOnly(s, s1);
      SendKeepsOrder(s1, SaveJob(id));
    case Remove(id, io) =>
      var s1 := s.(memory := s.memory - {id}, store := InlineWrite(s.store, id, None, io, 0).0, dead := s.dead + {id});
      OrderOfJobsOnly(s, s1);
      SendKeepsOrder(s1, DeleteJob(id));
    case Stop => SendKeepsOrder(s, Shutdown);
    case Work(a) =>
      if s.running && s.queue != [] {
        var s1 := s.(store := Execute(s.memory, s.store, s.queue[0], a).0);
        OrderOfJobsOnly(s, s1);
        OrderOfJobsOnly(s1, s1.(tries := s1.tries + 1));
        PopKeepsOrder(s, true);
        PopKeepsOrder(s1, true);
        PopKeepsOrder(s1, false);
      }
  }

  lemma {:induction false} StepsKeepOrder<V>(s: Sync<V>, steps: seq<Step<V>>)
    requires InOrder(s)
    ensures InOrder(RunSteps(s, steps))
    decreases |steps|
  {
    hide Apply, InOrder;
    if steps != [] {
      StepKeepsOrder(s, steps[0]);
      StepsKeepOrder(Apply(s, steps[0]), steps[1..]);
    }
  }

  /** When the worker has exited on a shutdown, it was the first one sent: every job sent before it was
      handled in turn, with success or as a permanent failure, and every job sent after it was lost. */
  lemma ShutdownFlushes<V>(s: Sync<V>, steps: seq<Step<V>>)
    requires Empty(s) && !RunSteps(s, steps).running
    ensures var s' := RunSteps(s, steps);
      && 0 < |s'.done| <= |s'.sent| && s'.sent[|s'.done| - 1] == Shutdown
      && (forall k :: 0 <= k < |s'.done| - 1 ==> !s'.sent[k].Shutdown? && s'.done[k].job == s'.sent[k])
      && s'.queue == [] && s'.dropped == s'.sent[|s'.done|..]
  {
    StepsKeepOrder(s, steps);
    JobsOfSize(RunSteps(s, steps).done);
  }

  /** Attempts of the worker, one after the other. */
  function Attempts<V>(attempts: seq<Attempt>): seq<Step<V>> {
    if attempts == [] then [] else [Work(attempts[0])] + Attempts(attempts[1..])
  }

  /** A job that fails stays at the head of the queue for 49 attempts, and is given up with the fiftieth. */
  lemma {:induction false} GivenUpWithTheFiftieth<V>(s: Sync<V>, attempts: seq<Attempt>)
    requires s.running && s.queue != [] && JobWrites(s.memory, s.queue[0]).Some?
    requires s.tries + |attempts| <= 50 && forall a <- attempts :: !a.Succeeded?
    ensures var s' := RunSteps(s, Attempts(attempts));
      && s'.memory == s.memory
      && (s.tries + |attempts| < 50 ==>
            s' == s.(store := s'.store, tries := s.tries + |attempts|))
      && (s.tries < 50 == s.tries + |attempts| ==>
            s' == s.(store := s'.store, tries := 0, queue := s.queue[1..],
              done := s.done + [Handled(s.queue[0], false)]))
    decreases |attempts|
  {
    if attempts != [] {
      assert attempts[0] in attempts && forall a <- attempts[1..] :: a in attempts;
      var s1 := Apply(s, Work(attempts[0]));
      var steps: seq<Step<V>> := Attempts(attempts);
      assert steps[1..] == Attempts(attempts[1..]) && steps[0] == Step<V>.Work(attempts[0]);
      assert RunSteps(s, steps) == RunSteps(s1, Attempts(attempts[1..]));
      if s.tries + 1 < 50 {
        GivenUpWithTheFiftieth(s1, attempts[1..]);
      } else {
        assert attempts[1..] == [];
      }
    }
  }

  // ---- One job in the worker: attempts and waiting ----

  /** The pause after the `k`-th failed attempt: doubling from one second, at most a minute. */
  function Backoff(k: nat): nat {
    if k == 0 then INITIAL_BACKOFF_MS
    else if Backoff(k - 1) * 2 < MAX_BACKOFF_MS then Backoff(k - 1) * 2 else MAX_BACKOFF_MS
  }

  function TotalBackoff(k: nat): nat {
    if k == 0 then 0 else TotalBackoff(k - 1) + Backoff(k - 1)
  }

  lemma {:induction false} TotalBackoffFrom(k: nat)
    requires k >= 6
    ensures Backoff(k) == MAX_BACKOFF_MS && TotalBackoff(k) == 63_000 + (k - 6) * MAX_BACKOFF_MS
    decreases k
  {
    if k > 6 {
      TotalBackoffFrom(k - 1);
    } else {
      assert Backoff(1) == 2_000;
      assert Backoff(2) == 4_000;
      assert Backoff(3) == 8_000;
      assert Backoff(4) == 16_000;
      assert Backoff(5) == 32_000;
      assert TotalBackoff(2) == 3_000;
      assert TotalBackoff(4) == 15_000;
    }
  }

  lemma {:induction false} TotalBackoffGrows(a: nat, b: nat)
    requires a <= b
    ensures TotalBackoff(a) <= TotalBackoff(b)
    decreases b
  {
    if a < b {
      TotalBackoffGrows(a, b - 1);
    }
  }

  /** All pauses of a job that fails to the last attempt. */
  const LONGEST_WAIT_MS: nat := 2_643_000

  lemma LongestWait()
    ensures TotalBackoff(MAX_RETRIES - 1) == LONGEST_WAIT_MS
  {
    TotalBackoffFrom(MAX_RETRIES - 1);
  }

  /** Jobs given up as permanent failures. */
  function GivenUp(done: seq<Handled>): nat {
    if done == [] then 0 else GivenUp(done[..|done| - 1]) + if done[|done| - 1].ok then 0 else 1
  }

  ghost predicate AllFail(io: nat -> Attempt) {
    forall k :: 0 <= k < MAX_RETRIES ==> !io(k).Succeeded?
  }

  /** The jobs handled are the first ones sent, none of them a shutdown request. */
  ghost predicate HandledInOrder(done: seq<Handled>, jobs: seq<Job>) {
    |done| <= |jobs| && forall n :: 0 <= n < |done| ==> !jobs[n].Shutdown? && done[n].job == jobs[n]
  }

  ghost predicate GivenUpLast(done: seq<Handled>, io: nat -> nat -> Attempt) {
    forall n :: 0 <= n < |done| && !done[n].ok ==> AllFail(io(n))
  }

  lemma {:induction false} HandleNext(done: seq<Handled>, jobs: seq<Job>, io: nat -> nat -> Attempt, ok: bool)
    requires HandledInOrder(done, jobs) && GivenUpLast(done, io)
    requires |done| < |jobs| && !jobs[|done|].Shutdown? && (ok || AllFail(io(|done|)))
    ensures var done' := done + [Handled(jobs[|done|], ok)];
      && HandledInOrder(done', jobs) && GivenUpLast(done', io)
      && GivenUp(done') == GivenUp(done) + if ok then 0 else 1
  {
    var done' := done + [Handled(jobs[|done|], ok)];
    assert done'[..|done|] == done;
  }

  /** The worker loop, with memory and the fate of each write as they are found attempt by attempt. */
  class RetryWorker<V> {
    var store: map<Uuid, V>
    var failures: nat

    constructor ()
      ensures store == map[] && failures == 0
    {
      store, failures := map[], 0;
    }

    /** Tries one job until it succeeds or has failed too often. `memory(k)` is what memory holds at
        the `k`-th attempt, `io(k)` how the write ends. */
    method RetryJob(job: Job, memory: nat -> map<Uuid, V>, io: nat -> Attempt)
        returns (ok: bool, attempts: nat, slept: nat)
      modifies this
      ensures 1 <= attempts <= MAX_RETRIES && slept == TotalBackoff(attempts - 1) <= LONGEST_WAIT_MS
      ensures forall k :: 0 <= k < attempts - 1 ==> JobWrites(memory(k), job).Some? && !io(k).Succeeded?
      ensures ok <==> JobWrites(memory(attempts - 1), job).None? || io(attempts - 1).Succeeded?
      ensures !ok ==> attempts == MAX_RETRIES
      ensures failures == old(failures) + if ok then 0 else 1
      ensures ok && JobWrites(memory(attempts - 1), job).Some? ==>
        var (id, value) := JobWrites(memory(attempts - 1), job).value; Lookup(store, id) == value
      ensures forall id :: (job.Shutdown? || id != job.id) ==> Lookup(store, id) == old(Lookup(store, id))
    {
      attempts, slept, ok := 0, 0, false;
      var backoff := INITIAL_BACKOFF_MS;
      LongestWait();
      while true
        invariant 0 <= attempts < MAX_RETRIES && slept == TotalBackoff(attempts) && backoff == Backoff(attempts) && !ok
        invariant forall k :: 0 <= k < attempts ==> JobWrites(memory(k), job).Some? && !io(k).Succeeded?
        invariant failures == old(failures)
        invariant forall id :: (job.Shutdown? || id != job.id) ==> Lookup(store, id) == old(Lookup(store, id))
        decreases MAX_RETRIES - attempts
      {
        var (written, succeeded) := Execute(memory(attempts), store, job, io(attempts));
        store := written;
        attempts := attempts + 1;
        if succeeded {
          TotalBackoffGrows(attempts - 1, MAX_RETRIES - 1);
          ok := true;
          return;
        }
        if attempts >= MAX_RETRIES {
          failures := failures + 1;
          return;
        }
        slept := slept + backoff;
        backoff := if backoff * 2 < MAX_BACKOFF_MS then backoff * 2 else MAX_BACKOFF_MS;
      }
    }

    /** Receives jobs until a shutdown request or the end of the channel. `memory(n)(k)` and `io(n)(k)`
        are what the `k`-th attempt at the `n`-th job finds. Every job before that point is handled, in
        the order sent; a job is given up only after every attempt failed, and is counted then. */
    method ReceiveJobs(jobs: seq<Job>, memory: nat -> nat -> map<Uuid, V>, io: nat -> nat -> Attempt)
      returns (done: seq<Handled>, slept: nat)
      modifies this
      ensures HandledInOrder(done, jobs) && (|done| < |jobs| ==> jobs[|done|].Shutdown?)
      ensures GivenUpLast(done, io)
      ensures failures == old(failures) + GivenUp(done) && slept <= |done| * LONGEST_WAIT_MS
    {
      done, slept := [], 0;
      while |done| < |jobs| && !jobs[|done|].Shutdown?
        invariant HandledInOrder(done, jobs) && GivenUpLast(done, io)
        invariant failures == old(failures) + GivenUp(done) && slept <= |done| * LONGEST_WAIT_MS
        decreases |jobs| - |done|
      {
        var job := jobs[|done|];
        var ok, attempts, waited := RetryJob(job, memory(|done|), io(|done|));
        assert ok || AllFail(io(|done|));
        HandleNext(done, jobs, io, ok);
        done, slept := done + [Handled(job, ok)], slept + waited;
      }
    }
  }

  /** The engine's side: a change of memory, written inline up to three times and queued after that, as
      long as the worker listens. */
  class PersistedMap<V> {
    var memory: map<Uuid, V>
    var store: map<Uuid, V>
    var queue: seq<Job>
    var dropped: seq<Job>
    var running: bool
    var errors: nat

    constructor ()
      ensures memory == map[] && store == map[] && queue == [] && dropped == [] && running && errors == 0
    {
      memory, store, queue, dropped, running, errors := map[], map[], [], [], true, 0;
    }

    /** The map as a state of a run, whose records of ids and jobs it does not keep. */
    ghost function Model(): Sync<V>
      reads this
    {
      Sync(memory, store, queue, 0, running, {}, [], [], dropped)
    }

    /** `enqueue_retry`. */
    method Enqueue(job: Job)
      modifies this`queue, this`dropped
      ensures queue == if running then old(queue) + [job] else old(queue)
      ensures dropped == if running then old(dropped) else old(dropped) + [job]
    {
      if running {
        queue := queue + [job];
      } else {
        dropped := dropped + [job];
      }
    }

    /** Writes inline; `io(k)` is how the `k`-th attempt ends. */
    method WriteInline(id: Uuid, value: Option<V>, fallback: Job, io: nat -> Attempt)
      modifies this`store, this`queue, this`dropped, this`errors
      ensures store == InlineWrite(old(store), id, value, io, 0).0
      ensures errors == old(errors) + if Succeeds(io) then 0 else 1
      ensures queue == if Succeeds(io) || !running then old(queue) else old(queue) + [fallback]
      ensures dropped == if Succeeds(io) || running then old(dropped) else old(dropped) + [fallback]
    {
      InlineWriteIs(store, id, value, io);
      var k := 0;
      while k <= INLINE_RETRIES
        invariant 0 <= k <= INLINE_RETRIES + 1 && queue == old(queue) && dropped == old(dropped)
          && errors == old(errors)
        invariant k <= INLINE_RETRIES ==>
          InlineWrite(store, id, value, io, k) == InlineWrite(old(store), id, value, io, 0)
        invariant k > INLINE_RETRIES ==> (store, false) == InlineWrite(old(store), id, value, io, 0)
      {
        if io(k).Reaches() {
          match value {
            case Some(v) => store := store[id := v];
            case None => store := store - {id};
          }
        }
        if io(k).Succeeded? {
          return;
        }
        k := k + 1;
      }
      errors := errors + 1;
      Enqueue(fallback);
    }

    /** An entry is set in memory and persisted. */
    method Put(id: Uuid, value: V, io: nat -> Attempt)
      modifies this
      ensures Model() == Apply(old(Model()), Step.Put(id, value, io)).(sent := [])
      ensures errors == old(errors) + if Succeeds(io) then 0 else 1
    {
      InlineWriteIs(store, id, Some(value), io);
      memory := memory[id := value];
      WriteInline(id, Some(value), SaveJob(id), io);
    }

    /** An entry is taken from memory and deleted from the store. */
    method Remove(id: Uuid, io: nat -> Attempt)
      modifies this
      ensures Model() == Apply(old(Model()), Step.Remove(id, io)).(sent := [], dead := {})
      ensures errors == old(errors) + if id !in old(memory) || Succeeds(io) then 0 else 1
    {
      if id !in memory {
        return;
      }
      InlineWriteIs(store, id, None, io);
      memory := memory - {id};
      WriteInline(id, None, DeleteJob(id), io);
    }
  }

  // ---- What the promise does not cover ----

  /** An entry put into memory without its persist call is missing in the store, and nothing to come or
      counted will repair it: exactly when no save job of it happens to be queued. */
  lemma UnpersistedEntryIsLost<V(!new)>(s: Sync<V>, id: Uuid, value: V)
    requires Accounted(s) && Tidy(s) && id !in s.memory && id !in s.store && id !in s.dead
    ensures Accounted(s.(memory := s.memory[id := value])) <==> Known(s, SaveJob(id))
  {
    var s' := s.(memory := s.memory[id := value]);
    assert AccountedAt(s', id) <==> Known(s, SaveJob(id));
    forall x | x != id ensures AccountedAt(s', x) {
      assert AccountedAt(s, x);
    }
  }

  /** The store after these jobs, each of them done with success. */
  function Settled<V>(memory: map<Uuid, V>, store: map<Uuid, V>, jobs: seq<Job>): map<Uuid, V>
    decreases |jobs|
  {
    if jobs == [] then store
    else Settled(memory, Execute(memory, store, jobs[0], Succeeded).0, jobs[1..])
  }

  lemma {:induction false} SettledAt<V>(memory: map<Uuid, V>, store: map<Uuid, V>, jobs: seq<Job>, id: Uuid)
    requires id in memory && DeleteJob(id) !in jobs
    ensures Lookup(Settled(memory, store, jobs), id) == if SaveJob(id) in jobs then Some(memory[id])
      else Lookup(store, id)
    decreases |jobs|
  {
    if jobs != [] {
      assert jobs == [jobs[0]] + jobs[1..];
      SettledAt(memory, Execute(memory, store, jobs[0], Succeeded).0, jobs[1..], id);
    }
  }

  lemma {:induction false} SettledAppend<V>(memory: map<Uuid, V>, store: map<Uuid, V>, jobs: seq<Job>, job: Job)
    ensures Settled(memory, store, jobs + [job]) == Execute(memory, Settled(memory, store, jobs), job, Succeeded).0
    decreases |jobs|
  {
    if jobs == [] {
      assert [] + [job] == [job];
      assert Settled(memory, Execute(memory, store, job, Succeeded).0, []) == Execute(memory, store, job, Succeeded).0;
    } else {
      assert (jobs + [job])[1..] == jobs[1..] + [job];
      SettledAppend(memory, Execute(memory, store, jobs[0], Succeeded).0, jobs[1..], job);
    }
  }

  /** An entry is taken, deleted from the store and put back into memory, as the rollback of a user task
      does. When the worker has done all it was sent, the store has the entry exactly when a save of it
      was queued and no deletion was queued behind it, or when no attempt at the deletion reached the
      store, which had the entry, and the job that would try again was lost to a shutdown. */
  lemma RolledBackEntryIsLost<V(!new)>(s: Sync<V>, id: Uuid, io: nat -> Attempt)
    requires Tidy(s) && id in s.memory
    ensures var s' := Apply(s, Remove(id, io)); var memory := s'.memory[id := s.memory[id]];
      Lookup(Settled(memory, s'.store, Live(s'.queue)), id) == Some(s.memory[id])
      <==> || (SaveJob(id) in Live(s.queue) && (Succeeds(io) || Closing(s)))
           || (Closing(s) && !Reaches(io) && Lookup(s.store, id) == Some(s.memory[id]))
  {
    var s' := Apply(s, Remove(id, io));
    var memory := s'.memory[id := s.memory[id]];
    InlineWriteIs(s.store, id, None, io);
    LiveAppend(s.queue, DeleteJob(id));
    hide InlineWrite;
    assert DeleteJob(id) !in Live(s.queue);
    SettledAt(memory, s'.store, Live(s.queue), id);
    if !Succeeds(io) && !Closing(s) {
      SettledAppend(memory, s'.store, Live(s.queue), DeleteJob(id));
    }
    hide Settled;
  }
}
