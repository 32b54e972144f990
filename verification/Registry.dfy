/** Deploying and deleting definitions (engine-core/src/engine/definition_ops.rs, registry.rs): versions,
    the latest definition, and no instance without its definition. */
module Registry {
  import opened Values
  import opened Definition
  import opened EngineState
  import opened Operations
  import opened CallFrames
  import opened Runs
  import opened Soundness
  import opened Engine

  // ---- Deploying ----

  ghost predicate HasVersion(defs: Definitions, id: string) {
    exists k <- defs :: defs[k].id == id
  }

  /** The highest version of a BPMN id that has one. */
  ghost function HighestOf(defs: Definitions, id: string): (v: int)
    requires HasVersion(defs, id)
    ensures forall k <- defs :: defs[k].id == id ==> defs[k].version <= v
    ensures exists k <- defs :: defs[k].id == id && defs[k].version == v
    decreases |defs|
  {
    var k :| k in defs && defs[k].id == id;
    var rest := defs - {k};
    if !HasVersion(rest, id) then
      assert forall j <- defs :: defs[j].id == id ==> j == k by {
        assert forall j <- defs :: j != k ==> j in rest;
      }
      defs[k].version
    else
      var v := HighestOf(rest, id);
      assert forall j <- defs :: j != k ==> j in rest;
      if v < defs[k].version then defs[k].version else v
  }

  ghost function Highest(defs: Definitions, id: string): Option<int> {
    if HasVersion(defs, id) then Some(HighestOf(defs, id)) else None
  }

  /** `normalize_definition`: one above the highest version, or the declared one. */
  ghost function NextVersion(defs: Definitions, id: string, declared: int): int {
    match Highest(defs, id)
    case Some(v) => v + 1
    case None => declared
  }

  /** Deploys `d` under its own key, and its sub-processes after it. `log` records the keys in the order
      in which they were entered. */
  ghost function Deploy(defs: Definitions, log: seq<Uuid>, d: ProcessDefinition, declared: int): (Definitions,
      seq<Uuid>)
    decreases d
  {
    var version := NextVersion(defs, d.id, declared);
    DeployAll(defs[d.key := d.(version := version, subProcesses := [])], log + [d.key], d.subProcesses, version)
  }

  ghost function DeployAll(defs: Definitions, log: seq<Uuid>, subs: seq<ProcessDefinition>, version: int): (Definitions,
      seq<Uuid>)
    decreases subs
  {
    if subs == [] then (defs, log)
    else
      var (defs', log') := Deploy(defs, log, subs[0], version);
      DeployAll(defs', log', subs[1..], version)
  }

  /** The version of a definition that is deployed: one above every version of its process that is there,
      of which one is right below it; the declared one when there is none. */
  ghost predicate NextAbove(defs: Definitions, id: string, declared: int, version: int) {
    && (forall k <- defs :: defs[k].id == id ==> defs[k].version < version)
    && ((exists k <- defs :: defs[k].id == id) ==>
          exists k <- defs :: defs[k].id == id && defs[k].version == version - 1)
    && ((forall k <- defs :: defs[k].id != id) ==> version == declared)
  }

  lemma NextVersionIsNext(defs: Definitions, id: string, declared: int)
    ensures NextAbove(defs, id, declared, NextVersion(defs, id, declared))
  {
    if HasVersion(defs, id) {
      var k :| k in defs && defs[k].id == id && defs[k].version == HighestOf(defs, id);
    }
  }

  /** What a deployment enters: the definition under its own key with the next version, then its
      sub-processes in turn, each with the next version of its own process, or the parent's when it is
      the first. */
  lemma DeploysNextVersion(defs: Definitions, log: seq<Uuid>, d: ProcessDefinition, declared: int)
    ensures exists version ::
      && NextAbove(defs, d.id, declared, version)
      && Deploy(defs, log, d, declared)
         == DeployAll(defs[d.key := d.(version := version, subProcesses := [])], log + [d.key], d.subProcesses, version)
  {
    NextVersionIsNext(defs, d.id, declared);
  }

  /** The keys of a definition and of all its sub-processes, in deployment order. */
  function KeysIn(d: ProcessDefinition): seq<Uuid>
    decreases d
  {
    [d.key] + KeysInAll(d.subProcesses)
  }

  function KeysInAll(subs: seq<ProcessDefinition>): seq<Uuid>
    decreases subs
  {
    if subs == [] then [] else KeysIn(subs[0]) + KeysInAll(subs[1..])
  }

  /** Deployed definitions are in the log, and live versions of one BPMN id are distinct and ordered as
      they were deployed. */
  ghost predicate Ordered(defs: Definitions, log: seq<Uuid>) {
    && NoDup(log) && (forall k <- defs :: k in log)
    && forall p, q :: 0 <= p < q < |log| && log[p] in defs && log[q] in defs && defs[log[p]].id == defs[log[q]].id ==>
         defs[log[p]].version < defs[log[q]].version
  }

  lemma DeployOneKeeps(defs: Definitions, log: seq<Uuid>, d: ProcessDefinition, declared: int)
    requires Ordered(defs, log) && d.key !in log
    ensures Ordered(defs[d.key := d.(version := NextVersion(defs, d.id, declared), subProcesses := [])], log + [d.key])
  {
    var stored := d.(version := NextVersion(defs, d.id, declared), subProcesses := []);
    var defs', log' := defs[d.key := stored], log + [d.key];
    forall p, q | 0 <= p < q < |log'| && log'[p] in defs' && log'[q] in defs' && defs'[log'[p]].id == defs'[log'[q]].id
      ensures defs'[log'[p]].version < defs'[log'[q]].version
    {
      if q == |log| {
        assert log'[p] in defs && defs[log'[p]].id == d.id;
        assert HasVersion(defs, d.id);
      }
    }
  }

  /** Keys that were never used before: what the parser hands to a deployment. */
  ghost predicate FreshKeys(keys: seq<Uuid>, log: seq<Uuid>) {
    NoDup(keys) && forall k <- keys :: k !in log
  }

  lemma FreshSplit(a: seq<Uuid>, b: seq<Uuid>, log: seq<Uuid>)
    requires FreshKeys(a + b, log)
    ensures FreshKeys(a, log) && FreshKeys(b, log + a)
  {
    assert forall k :: 0 <= k < |a| ==> (a + b)[k] == a[k];
    assert forall k :: 0 <= k < |b| ==> (a + b)[|a| + k] == b[k];
    assert forall k <- a :: k in a + b;
    assert forall k <- b :: k in a + b;
  }

  lemma {:induction false} DeployKeeps(defs: Definitions, log: seq<Uuid>, d: ProcessDefinition, declared: int)
    requires Ordered(defs, log) && FreshKeys(KeysIn(d), log)
    ensures var (defs', log') := Deploy(defs, log, d, declared); Ordered(defs', log') && log' == log + KeysIn(d)
    decreases d
  {
    var version := NextVersion(defs, d.id, declared);
    var defs1, log1 := defs[d.key := d.(version := version, subProcesses := [])], log + [d.key];
    FreshSplit([d.key], KeysInAll(d.subProcesses), log);
    assert d.key in [d.key];
    DeployOneKeeps(defs, log, d, declared);
    DeployAllKeeps(defs1, log1, d.subProcesses, version);
    assert log1 + KeysInAll(d.subProcesses) == log + KeysIn(d);
  }

  lemma {:induction false} DeployAllKeeps(defs: Definitions, log: seq<Uuid>, subs: seq<ProcessDefinition>, version: int)
    requires Ordered(defs, log) && FreshKeys(KeysInAll(subs), log)
    ensures var (defs', log') := DeployAll(defs, log, subs, version);
      Ordered(defs', log') && log' == log + KeysInAll(subs)
    decreases subs
  {
    if subs != [] {
      FreshSplit(KeysIn(subs[0]), KeysInAll(subs[1..]), log);
      DeployKeeps(defs, log, subs[0], version);
      var (defs1, log1) := Deploy(defs, log, subs[0], version);
      DeployAllKeeps(defs1, log1, subs[1..], version);
      assert log + KeysIn(subs[0]) + KeysInAll(subs[1..]) == log + KeysInAll(subs);
    }
  }

  /** Deployment keeps every key that is registered. */
  lemma {:induction false} DeployRegisters(defs: Definitions, log: seq<Uuid>, d: ProcessDefinition, declared: int)
    ensures defs.Keys + {d.key} <= Deploy(defs, log, d, declared).0.Keys
    decreases d
  {
    var version := NextVersion(defs, d.id, declared);
    DeployAllRegisters(defs[d.key := d.(version := version, subProcesses := [])],
                       log + [d.key], d.subProcesses, version);
  }

  lemma {:induction false} DeployAllRegisters(defs: Definitions, log: seq<Uuid>, subs: seq<ProcessDefinition>,
      version: int)
    ensures defs.Keys <= DeployAll(defs, log, subs, version).0.Keys
    decreases subs
  {
    if subs != [] {
      DeployRegisters(defs, log, subs[0], version);
      var (defs1, log1) := Deploy(defs, log, subs[0], version);
      DeployAllRegisters(defs1, log1, subs[1..], version);
    }
  }

  lemma NoDupSplit(a: seq<Uuid>, b: seq<Uuid>)
    requires NoDup(a + b)
    ensures NoDup(a) && NoDup(b) && forall k <- a :: k !in b
  {
    assert forall p :: 0 <= p < |a| ==> (a + b)[p] == a[p];
    assert forall p :: 0 <= p < |b| ==> (a + b)[|a| + p] == b[p];
  }

  /** A definition entered under a key in use differs from the one it replaces. */
  lemma EntryDiffers(defs: Definitions, d: ProcessDefinition, declared: int)
    requires d.key in defs
    ensures d.(version := NextVersion(defs, d.id, declared), subProcesses := []) != defs[d.key]
  {
    if defs[d.key].id == d.id {
      assert HasVersion(defs, d.id);
      assert defs[d.key].version <= HighestOf(defs, d.id);
    }
  }

  lemma {:induction false} DeployReplaces(defs: Definitions, log: seq<Uuid>, d: ProcessDefinition, declared: int,
      k: Uuid)
    requires k in defs && NoDup(KeysIn(d))
    ensures var defs' := Deploy(defs, log, d, declared).0; k in defs' && (defs'[k] == defs[k] <==> k !in KeysIn(d))
    decreases d
  {
    var version := NextVersion(defs, d.id, declared);
    var defs1 := defs[d.key := d.(version := version, subProcesses := [])];
    NoDupSplit([d.key], KeysInAll(d.subProcesses));
    DeployAllReplaces(defs1, log + [d.key], d.subProcesses, version, k);
    if k == d.key {
      assert d.key in [d.key];
      EntryDiffers(defs, d, declared);
    }
  }

  lemma {:induction false} DeployAllReplaces(defs: Definitions, log: seq<Uuid>, subs: seq<ProcessDefinition>,
      version: int, k: Uuid)
    requires k in defs && NoDup(KeysInAll(subs))
    ensures var defs' := DeployAll(defs, log, subs, version).0;
      k in defs' && (defs'[k] == defs[k] <==> k !in KeysInAll(subs))
    decreases subs
  {
    if subs != [] {
      NoDupSplit(KeysIn(subs[0]), KeysInAll(subs[1..]));
      DeployReplaces(defs, log, subs[0], version, k);
      var (defs1, log1) := Deploy(defs, log, subs[0], version);
      DeployAllReplaces(defs1, log1, subs[1..], version, k);
    }
  }

  /** The documentation promises a fresh key; the code keeps the key it is given. A definition that is
      already deployed survives a deployment exactly when neither the deployed definition nor any of its
      sub-processes, at any depth, comes with its key. */
  lemma OldDefinitionSurvives(defs: Definitions, log: seq<Uuid>, d: ProcessDefinition, k: Uuid)
    requires k in defs && NoDup(KeysIn(d))
    ensures var defs' := Deploy(defs, log, d, d.version).0; k in defs' && (defs'[k] == defs[k] <==> k !in KeysIn(d))
  {
    DeployReplaces(defs, log, d, d.version, k);
  }

  // ---- The latest definition ----

  /** The key deployed last among the live ones of a BPMN id. */
  function MostRecent(defs: Definitions, log: seq<Uuid>, id: string): Option<Uuid> {
    if log == [] then None
    else
      var k := log[|log| - 1];
      if k in defs && defs[k].id == id then Some(k) else MostRecent(defs, log[..|log| - 1], id)
  }

  lemma {:induction false} MostRecentIs(defs: Definitions, log: seq<Uuid>, id: string)
    ensures match MostRecent(defs, log, id)
      case Some(k) => k in defs && defs[k].id == id
        && exists p :: 0 <= p < |log| && log[p] == k && forall q :: p < q < |log| ==>
           !(log[q] in defs && defs[log[q]].id == id)
      case None => forall p :: 0 <= p < |log| ==> !(log[p] in defs && defs[log[p]].id == id)
    decreases |log|
  {
    if log != [] {
      var n := |log| - 1;
      if !(log[n] in defs && defs[log[n]].id == id) {
        MostRecentIs(defs, log[..n], id);
        assert forall p :: 0 <= p < n ==> log[..n][p] == log[p];
        if MostRecent(defs, log, id).Some? {
          var p :| 0 <= p < n && log[..n][p] == MostRecent(defs, log, id).value
            && forall q :: p < q < n ==> !(log[..n][q] in defs && defs[log[..n][q]].id == id);
          assert forall q :: p < q < n ==> log[..n][q] == log[q];
        }
      }
    }
  }

  lemma {:induction false} LatestIs(defs: Definitions, order: seq<Uuid>, id: string)
    ensures match LatestOf(defs, order, id)
      case Some(k) => k in defs && k in order && defs[k].id == id
        && forall j <- order :: j in defs && defs[j].id == id ==> defs[j].version <= defs[k].version
      case None => forall j <- order :: !(j in defs && defs[j].id == id)
    decreases |order|
  {
    if order != [] {
      LatestIs(defs, order[1..], id);
      assert forall j <- order :: j == order[0] || j in order[1..];
    }
  }

  /** `find_latest_by_bpmn_id` answers with the most recent survivor, in whatever order the hash map is
      walked. */
  lemma LatestIsMostRecent(defs: Definitions, log: seq<Uuid>, order: seq<Uuid>, id: string)
    requires Ordered(defs, log) && Enumerates(order, defs.Keys)
    ensures LatestOf(defs, order, id) == MostRecent(defs, log, id)
  {
    LatestIs(defs, order, id);
    MostRecentIs(defs, log, id);
    assert forall k <- defs :: k in defs.Keys && k in order && k in log;
    hide LatestOf, MostRecent;
    if LatestOf(defs, order, id).Some? && MostRecent(defs, log, id).Some? {
      var a, b := LatestOf(defs, order, id).value, MostRecent(defs, log, id).value;
      var p :| 0 <= p < |log| && log[p] == b && forall q :: p < q < |log| ==>
        !(log[q] in defs && defs[log[q]].id == id);
      var q :| 0 <= q < |log| && log[q] == a;
      assert q <= p;
    }
  }

  /** The live definitions of a BPMN id, in the order they were deployed. */
  function LiveIn(defs: Definitions, log: seq<Uuid>, id: string): seq<Uuid> {
    if log == [] then []
    else
      var k, before := log[|log| - 1], LiveIn(defs, log[..|log| - 1], id);
      if k in defs && defs[k].id == id then before + [k] else before
  }

  /** `v` lists exactly these keys, each once, by ascending version. */
  ghost predicate SortedByVersion(defs: Definitions, v: seq<Uuid>) {
    && NoDup(v) && (forall k <- v :: k in defs)
    && forall a, b :: 0 <= a < b < |v| ==> defs[v[a]].version <= defs[v[b]].version
  }

  ghost predicate ListsLive(defs: Definitions, log: seq<Uuid>, id: string, v: seq<Uuid>) {
    forall k :: k in v <==> k in log && k in defs && defs[k].id == id
  }

  ghost predicate OrderedIn(defs: Definitions, log: seq<Uuid>) {
    NoDup(log) && forall p, q ::
      0 <= p < q < |log| && log[p] in defs && log[q] in defs && defs[log[p]].id == defs[log[q]].id ==>
      defs[log[p]].version < defs[log[q]].version
  }

  /** The last live key in the log has a higher version than every other. */
  lemma Newest(defs: Definitions, log: seq<Uuid>, id: string, x: Uuid)
    requires OrderedIn(defs, log) && log != [] && log[|log| - 1] in defs && defs[log[|log| - 1]].id == id
    requires x in log && x in defs && defs[x].id == id && x != log[|log| - 1]
    ensures defs[x].version < defs[log[|log| - 1]].version
  {
    var p: nat :| p < |log| && log[p] == x;
    assert p < |log| - 1;
  }

  lemma LastIsNewest(defs: Definitions, log: seq<Uuid>, id: string, v: seq<Uuid>)
    requires OrderedIn(defs, log) && SortedByVersion(defs, v) && ListsLive(defs, log, id, v)
    requires log != [] && log[|log| - 1] in defs && defs[log[|log| - 1]].id == id
    ensures v != [] && v[|v| - 1] == log[|log| - 1]
  {
    var k := log[|log| - 1];
    assert k in log && k in v;
    var m: nat :| m < |v| && v[m] == k;
    var last := v[|v| - 1];
    assert last in v;
    if last != k {
      Newest(defs, log, id, last);
    }
  }

  lemma NoMembers<T(!new)>(v: seq<T>)
    ensures v == [] || exists x :: x in v
  {
    if v != [] {
      assert v[0] in v;
    }
  }

  lemma FrontOrdered(defs: Definitions, log: seq<Uuid>)
    requires OrderedIn(defs, log) && log != []
    ensures OrderedIn(defs, log[..|log| - 1]) && log[|log| - 1] !in log[..|log| - 1]
  {}

  lemma FrontSorted(defs: Definitions, v: seq<Uuid>)
    requires SortedByVersion(defs, v) && v != []
    ensures SortedByVersion(defs, v[..|v| - 1]) && v[|v| - 1] !in v[..|v| - 1]
  {}

  lemma MembersOfFront(s: seq<Uuid>, x: Uuid)
    requires s != []
    ensures x in s <==> x in s[..|s| - 1] || x == s[|s| - 1]
  {
    assert s == s[..|s| - 1] + [s[|s| - 1]];
  }

  /** Without the last of the log, the list goes without its last too, if that is it. */
  lemma WithoutLast(defs: Definitions, log: seq<Uuid>, id: string, v: seq<Uuid>, live: bool)
    requires OrderedIn(defs, log) && SortedByVersion(defs, v) && ListsLive(defs, log, id, v) && log != []
    requires live <==> log[|log| - 1] in defs && defs[log[|log| - 1]].id == id
    requires live ==> v != [] && v[|v| - 1] == log[|log| - 1]
    ensures var rest, front := log[..|log| - 1], if live then v[..|v| - 1] else v;
      OrderedIn(defs, rest) && SortedByVersion(defs, front) && ListsLive(defs, rest, id, front)
  {
    hide OrderedIn, SortedByVersion;
    FrontOrdered(defs, log);
    if live { FrontSorted(defs, v); }
    var rest, front := log[..|log| - 1], if live then v[..|v| - 1] else v;
    forall x ensures x in front <==> x in rest && x in defs && defs[x].id == id {
      MembersOfFront(log, x);
      if live { MembersOfFront(v, x); }
    }
  }

  lemma NothingLive(defs: Definitions, id: string, v: seq<Uuid>)
    requires ListsLive(defs, [], id, v)
    ensures v == []
  {
    NoMembers(v);
  }

  lemma {:induction false} SortedIsDeployed(defs: Definitions, log: seq<Uuid>, id: string, v: seq<Uuid>)
    requires OrderedIn(defs, log) && SortedByVersion(defs, v) && ListsLive(defs, log, id, v)
    ensures v == LiveIn(defs, log, id)
    decreases |log|
  {
    hide OrderedIn, SortedByVersion, ListsLive;
    if log == [] {
      NothingLive(defs, id, v);
    } else {
      var k, rest := log[|log| - 1], log[..|log| - 1];
      if k in defs && defs[k].id == id {
        LastIsNewest(defs, log, id, v);
        WithoutLast(defs, log, id, v, true);
        SortedIsDeployed(defs, rest, id, v[..|v| - 1]);
        assert v == v[..|v| - 1] + [k];
      } else {
        WithoutLast(defs, log, id, v, false);
        SortedIsDeployed(defs, rest, id, v);
      }
    }
  }

  /** All versions of a BPMN id, sorted by version, are its live definitions in the order in which they
      were deployed. */
  lemma AllVersionsInDeploymentOrder(defs: Definitions, log: seq<Uuid>, id: string, v: seq<Uuid>)
    requires Ordered(defs, log) && SortedByVersion(defs, v) && forall k :: k in v <==> k in defs && defs[k].id == id
    ensures v == LiveIn(defs, log, id)
  {
    SortedIsDeployed(defs, log, id, v);
  }

  // ---- Deleting ----

  function Associated(insts: Instances, order: seq<Uuid>, key: Uuid): seq<Uuid> {
    if order == [] then []
    else (if order[0] in insts && insts[order[0]].definitionKey == key then [order[0]] else [])
         + Associated(insts, order[1..], key)
  }

  /** Deletes instances in turn; the first refusal ends it. */
  function DeleteEach(s: State, ids: seq<Uuid>, storeOk: Uuid -> bool): (State, Outcome)
    decreases |ids|
  {
    if ids == [] then (s, Done)
    else
      var (s', r) := DeleteInstance(s, ids[0], storeOk(ids[0]));
      if r.Failed? then (s', r) else DeleteEach(s', ids[1..], storeOk)
  }

  /** `order` is how the instances are walked; `storeOk` says which deletions the store accepts, by the
      key of the instance or the definition. */
  function DeleteDefinition(s: State, key: Uuid, cascade: bool, order: seq<Uuid>, storeOk: Uuid -> bool): (State,
      Outcome) {
    if key !in s.definitions then (s, Failed(NoSuchDefinition(key)))
    else
      var ids := Associated(s.instances, order, key);
      if ids != [] && !cascade then (s, Failed(DefinitionHasInstances(|ids|)))
      else
        var (s', r) := DeleteEach(s, ids, storeOk);
        if r.Failed? then (s', r)
        else (s'.(definitions := s'.definitions - {key}), if storeOk(key) then Done else Failed(PersistenceError))
  }

  lemma AssociatedNext(insts: Instances, order: seq<Uuid>, k: nat, key: Uuid)
    requires k < |order|
    ensures Associated(insts, order[k..], key) ==
      if order[k] in insts && insts[order[k]].definitionKey == key
        then [order[k]] + Associated(insts, order[k + 1..], key)
      else Associated(insts, order[k + 1..], key)
    ensures Associated(insts, order[|order|..], key) == []
  {
    assert order[k..][1..] == order[k + 1..];
  }

  lemma {:induction false} AssociatedAre(insts: Instances, order: seq<Uuid>, key: Uuid)
    ensures forall i :: i in Associated(insts, order, key) <==>
      i in order && i in insts && insts[i].definitionKey == key
    decreases |order|
  {
    if order != [] {
      AssociatedAre(insts, order[1..], key);
      assert forall i :: i in order <==> i == order[0] || i in order[1..];
    }
  }

  lemma {:induction false} DeleteEachRemoves(s: State, ids: seq<Uuid>, storeOk: Uuid -> bool)
    ensures var (s', r) := DeleteEach(s, ids, storeOk);
      && s'.definitions == s.definitions && s'.nextId == s.nextId
      && (forall i <- s'.instances :: i in s.instances && s'.instances[i] == s.instances[i])
      && (r.Done? ==> forall i <- ids :: i !in s'.instances)
    decreases |ids|
  {
    if ids != [] {
      var s1 := DeleteInstance(s, ids[0], storeOk(ids[0])).0;
      assert s1.definitions == s.definitions && s1.nextId == s.nextId;
      assert forall i <- s1.instances :: i in s.instances && s1.instances[i] == s.instances[i] && i != ids[0];
      hide DeleteInstance;
      DeleteEachRemoves(s1, ids[1..], storeOk);
      assert forall i <- ids :: i == ids[0] || i in ids[1..];
    }
  }

  /** Instance `i` runs on definition `key`. */
  ghost predicate RunsOnKey(s: State, i: Uuid, key: Uuid) {
    i in s.instances && s.instances[i].definitionKey == key
  }

  /** The instances that run on definition `key`. */
  function InstancesOn(s: State, key: Uuid): set<Uuid> {
    set i | i in s.instances && s.instances[i].definitionKey == key
  }

  lemma {:induction false} AssociatedOnce(insts: Instances, order: seq<Uuid>, key: Uuid)
    requires NoDup(order)
    ensures NoDup(Associated(insts, order, key))
    decreases |order|
  {
    if order != [] {
      AssociatedOnce(insts, order[1..], key);
      AssociatedAre(insts, order[1..], key);
      assert order[0] !in order[1..] && NoDup(order[1..]);
    }
  }

  function Members(ids: seq<Uuid>): set<Uuid> {
    set i | i in ids
  }

  lemma MembersSplit(ids: seq<Uuid>)
    requires ids != [] && NoDup(ids)
    ensures Members(ids) == Members(ids[1..]) + {ids[0]} && ids[0] !in Members(ids[1..]) && NoDup(ids[1..])
  {
    assert ids == [ids[0]] + ids[1..];
  }

  lemma {:induction false} SizeOfNoDup(ids: seq<Uuid>)
    requires NoDup(ids)
    ensures |Members(ids)| == |ids|
    decreases |ids|
  {
    if ids != [] {
      MembersSplit(ids);
      hide Members, NoDup;
      SizeOfNoDup(ids[1..]);
    }
  }

  lemma {:induction false} DeleteEachAccepted(s: State, ids: seq<Uuid>, storeOk: Uuid -> bool)
    requires NoDup(ids) && (forall i <- ids :: i in s.instances && storeOk(i))
    ensures var (s', r) := DeleteEach(s, ids, storeOk);
      && r == Done && s' == s.(instances := s'.instances, userTasks := s'.userTasks, serviceTasks := s'.serviceTasks,
                               timers := s'.timers, catches := s'.catches)
      && (forall j :: j !in ids ==> View(s', j) == View(s, j))
      && (forall i <- ids :: View(s', i) == InstanceView(None, map[], map[], map[], map[]))
    decreases |ids|
  {
    if ids != [] {
      var i, rest := ids[0], ids[1..];
      assert ids == [i] + rest && NoDup(rest) && i !in rest;
      var s1 := DeleteInstance(s, i, true).0;
      DeletedViews(s, i);
      assert forall j <- rest :: j in s1.instances;
      hide DeleteInstance, View, NoDup;
      DeleteEachAccepted(s1, rest, storeOk);
      var s' := DeleteEach(s1, rest, storeOk).0;
      assert View(s', i) == View(s1, i);
      forall x | x in ids ensures View(s', x) == InstanceView(None, map[], map[], map[], map[]) {
        assert x == i || x in rest;
      }
    }
  }

  lemma DeletedViews(s: State, i: Uuid)
    requires i in s.instances
    ensures var s' := DeleteInstance(s, i, true).0;
      && (forall j :: j != i ==> View(s', j) == View(s, j))
         && View(s', i) == InstanceView(None, map[], map[], map[], map[])
  {
    forall j | j != i ensures View(DeleteInstance(s, i, true).0, j) == View(s, j) {
      OthersOnly(s.userTasks, i, j);
      OthersOnly(s.serviceTasks, i, j);
      OthersOnly(s.timers, i, j);
      OthersOnly(s.catches, i, j);
      hide DropInstance, OfInstance;
    }
  }

  lemma OthersOnly<K>(m: map<Uuid, Entry<K>>, i: Uuid, j: Uuid)
    requires i != j
    ensures OfInstance(DropInstance(m, i), j) == OfInstance(m, j)
  {}

  /** Without cascade a definition is deleted exactly when no instance runs on it and the store accepts;
      while instances run the call answers with their number and changes nothing. */
  lemma DeletionSparesInstances(s: State, key: Uuid, order: seq<Uuid>, storeOk: Uuid -> bool)
    requires Enumerates(order, s.instances.Keys)
    ensures var (s', r) := DeleteDefinition(s, key, false, order, storeOk);
      && (key !in s.definitions ==> s' == s && r == Failed(NoSuchDefinition(key)))
      && (key in s.definitions ==> (r == Done <==> (forall i :: !RunsOnKey(s, i, key)) && storeOk(key)))
      && (key in s.definitions && InstancesOn(s, key) != {} ==>
            s' == s && r == Failed(DefinitionHasInstances(|InstancesOn(s, key)|)))
      && (key in s.definitions && InstancesOn(s, key) == {} ==>
            s' == s.(definitions := s.definitions - {key})
            && r == if storeOk(key) then Done else Failed(PersistenceError))
  {
    AssociatedAre(s.instances, order, key);
    AssociatedOnce(s.instances, order, key);
    var ids := Associated(s.instances, order, key);
    SizeOfNoDup(ids);
    assert Members(ids) == InstancesOn(s, key);
    hide Associated;
    if ids != [] {
      assert ids[0] in InstancesOn(s, key) && RunsOnKey(s, ids[0], key);
    } else {
      assert DeleteEach(s, [], storeOk) == (s, Done);
    }
  }

  /** With cascade, and a store that accepts, exactly the instances of the definition go, with all their
      pending work, and every other instance is as it was. */
  lemma CascadeDeletesInstances(s: State, key: Uuid, order: seq<Uuid>, storeOk: Uuid -> bool)
    requires key in s.definitions && Enumerates(order, s.instances.Keys)
    requires storeOk(key) && forall i <- s.instances :: s.instances[i].definitionKey == key ==> storeOk(i)
    ensures var (s', r) := DeleteDefinition(s, key, true, order, storeOk);
      && r == Done && s'.definitions == s.definitions - {key}
      && (forall i :: RunsOnKey(s, i, key) ==> View(s', i) == InstanceView(None, map[], map[], map[], map[]))
      && (forall j :: !RunsOnKey(s, j, key) ==> View(s', j) == View(s, j))
  {
    AssociatedAre(s.instances, order, key);
    AssociatedOnce(s.instances, order, key);
    var ids := Associated(s.instances, order, key);
    hide Associated, View;
    DeleteEachAccepted(s, ids, storeOk);
    hide DeleteEach;
    var s1 := DeleteEach(s, ids, storeOk).0;
    SameViews(s1, s1.(definitions := s1.definitions - {key}));
  }

  lemma SameViews(s: State, s': State)
    requires s' == s.(definitions := s'.definitions)
    ensures forall j :: View(s', j) == View(s, j)
  {}

  /** The position of the first instance of the definition whose deletion the store refuses. */
  ghost predicate FirstRefused(s: State, key: Uuid, order: seq<Uuid>, storeOk: Uuid -> bool, k: nat) {
    && k < |order| && RunsOnKey(s, order[k], key) && !storeOk(order[k])
    && forall j :: 0 <= j < k && RunsOnKey(s, order[j], key) ==> storeOk(order[j])
  }

  /** A cascade stops at the first instance whose deletion the store refuses: that one and those before it
      are gone, the others and the definition stay. */
  lemma CascadeStopsAtRefusal(s: State, key: Uuid, order: seq<Uuid>, storeOk: Uuid -> bool, k: nat)
    requires key in s.definitions && Enumerates(order, s.instances.Keys) && FirstRefused(s, key, order, storeOk, k)
    ensures var (s', r) := DeleteDefinition(s, key, true, order, storeOk);
      && r == Failed(PersistenceError) && s'.definitions == s.definitions
      && s'.instances.Keys <= s.instances.Keys
      && forall j :: 0 <= j < |order| ==>
           (order[j] in s'.instances <==> j > k || !RunsOnKey(s, order[j], key))
           && (order[j] in s'.instances ==> s'.instances[order[j]] == s.instances[order[j]])
  {
    var before, x, later := Associated(s.instances, order[..k], key), order[k],
      Associated(s.instances, order[k + 1..], key);
    AssociatedAround(s, key, order, storeOk, k);
    hide Associated;
    DeleteEachStops(s, before, x, later, storeOk);
    hide DeleteEach;
  }

  lemma AssociatedAround(s: State, key: Uuid, order: seq<Uuid>, storeOk: Uuid -> bool, k: nat)
    requires NoDup(order) && FirstRefused(s, key, order, storeOk, k)
    ensures var before, later := Associated(s.instances, order[..k], key), Associated(s.instances, order[k + 1..], key);
      && Associated(s.instances, order, key) == before + [order[k]] + later
      && NoDup(before) && order[k] !in before && (forall i <- before :: i in s.instances && storeOk(i))
      && forall j :: 0 <= j < |order| ==> (order[j] in before <==> j < k && RunsOnKey(s, order[j], key))
  {
    var before, x, rest := Associated(s.instances, order[..k], key), order[k], order[k + 1..];
    assert order == order[..k] + ([x] + rest) && ([x] + rest)[1..] == rest;
    AssociatedSplit(s.instances, order[..k], [x] + rest, key);
    AssociatedAre(s.instances, order[..k], key);
    AssociatedOnce(s.instances, order[..k], key);
    assert Associated(s.instances, [x] + rest, key) == [x] + Associated(s.instances, rest, key);
    hide Associated;
    forall j | 0 <= j < |order| ensures order[j] in order[..k] <==> j < k {
      if j < k { assert order[..k][j] == order[j]; }
    }
    forall i | i in before ensures storeOk(i) {
      var j :| 0 <= j < k && order[j] == i;
      assert RunsOnKey(s, order[j], key);
    }
  }

  lemma {:induction false} AssociatedSplit(insts: Instances, a: seq<Uuid>, b: seq<Uuid>, key: Uuid)
    ensures Associated(insts, a + b, key) == Associated(insts, a, key) + Associated(insts, b, key)
    decreases |a|
  {
    if a == [] {
      assert a + b == b;
    } else {
      assert (a + b)[1..] == a[1..] + b;
      AssociatedSplit(insts, a[1..], b, key);
    }
  }

  lemma {:induction false} DeleteEachStops(s: State, before: seq<Uuid>, x: Uuid, later: seq<Uuid>,
      storeOk: Uuid -> bool)
    requires NoDup(before) && x !in before && x in s.instances && !storeOk(x)
    requires forall i <- before :: i in s.instances && storeOk(i)
    ensures var (s', r) := DeleteEach(s, before + [x] + later, storeOk);
      && r == Failed(PersistenceError) && s'.definitions == s.definitions
      && s'.instances == s.instances - Members(before) - {x}
    decreases |before|
  {
    var all := before + [x] + later;
    if before == [] {
      assert all[0] == x;
      assert Members(before) == {};
    } else {
      var s1 := DeleteInstance(s, before[0], true).0;
      MembersSplit(before);
      assert all[0] == before[0] && all[1..] == before[1..] + [x] + later;
      assert forall i <- before[1..] :: i in before;
      assert s1.instances == s.instances - {before[0]} && s1.definitions == s.definitions;
      assert DeleteEach(s, all, storeOk) == DeleteEach(s1, all[1..], storeOk);
      DeleteEachStops(s1, before[1..], x, later, storeOk);
      hide DeleteInstance, DeleteEach, Members;
      assert s.instances - {before[0]} - Members(before[1..]) == s.instances - Members(before);
    }
  }

  // ---- Runs ----

  lemma DeleteLeavesNoOrphans(s: State, key: Uuid, cascade: bool, order: seq<Uuid>, storeOk: Uuid -> bool)
    requires NoOrphans(s) && Enumerates(order, s.instances.Keys)
    ensures NoOrphans(DeleteDefinition(s, key, cascade, order, storeOk).0)
  {
    var ids := Associated(s.instances, order, key);
    AssociatedAre(s.instances, order, key);
    DeleteEachRemoves(s, ids, storeOk);
    var (s', r) := DeleteEach(s, ids, storeOk);
    hide DeleteEach, Associated;
    forall i | r.Done? && i in s'.instances ensures s'.instances[i].definitionKey != key {
      assert i in s.instances.Keys && i in order;
    }
  }

  datatype RegistryCall =
    | EngineCall(call: Call)
    | Deployment(definition: ProcessDefinition)
    | Deletion(key: Uuid, cascade: bool, order: seq<Uuid>, storeOk: Uuid -> bool)

  ghost function Step(s: State, log: seq<Uuid>, c: RegistryCall): (State, seq<Uuid>) {
    match c
    case EngineCall(call) => (Apply(s, call), log)
    case Deployment(d) =>
      var (defs, log') := Deploy(s.definitions, log, d, d.version);
      (s.(definitions := defs), log')
    case Deletion(key, cascade, order, storeOk) => (DeleteDefinition(s, key, cascade, order, storeOk).0, log)
  }

  ghost function RunRegistry(s: State, log: seq<Uuid>, calls: seq<RegistryCall>): (State, seq<Uuid>)
    decreases |calls|
  {
    if calls == [] then (s, log) else var (s', log') := Step(s, log, calls[0]); RunRegistry(s', log', calls[1..])
  }

  /** Deletions walk all instances, and deployments bring keys of their own. */
  ghost predicate Proper(s: State, log: seq<Uuid>, c: RegistryCall, freshKeys: bool) {
    match c
    case EngineCall(_) => true
    case Deployment(d) => freshKeys ==> FreshKeys(KeysIn(d), log)
    case Deletion(_, _, order, _) => Enumerates(order, s.instances.Keys)
  }

  ghost predicate ProperRun(s: State, log: seq<Uuid>, calls: seq<RegistryCall>, freshKeys: bool)
    decreases |calls|
  {
    calls == [] || (
      && Proper(s, log, calls[0], freshKeys)
      && var (s', log') := Step(s, log, calls[0]); ProperRun(s', log', calls[1..], freshKeys))
  }

  lemma StepKeepsOrphans(s: State, log: seq<Uuid>, c: RegistryCall)
    requires Sane(s) && NoOrphans(s) && Proper(s, log, c, false)
    ensures Sane(Step(s, log, c).0) && NoOrphans(Step(s, log, c).0)
  {
    hide Apply;
    match c
    case EngineCall(call) => EngineCallKeepsOrphans(s, call);
    case Deployment(d) =>
      DeployRegisters(s.definitions, log, d, d.version);
      hide Deploy;
    case Deletion(key, cascade, order, storeOk) =>
      DeleteLeavesNoOrphans(s, key, cascade, order, storeOk);
      DeleteKeepsSane(s, key, cascade, order, storeOk);
  }

  lemma {:induction false} DeleteEachSane(s: State, ids: seq<Uuid>, storeOk: Uuid -> bool)
    requires Sane(s)
    ensures Sane(DeleteEach(s, ids, storeOk).0)
    decreases |ids|
  {
    hide DeleteInstance, Sane;
    if ids != [] {
      DeleteInstanceFrame(s, ids[0], storeOk(ids[0]));
      DeleteEachSane(DeleteInstance(s, ids[0], storeOk(ids[0])).0, ids[1..], storeOk);
    }
  }

  lemma DeleteKeepsSane(s: State, key: Uuid, cascade: bool, order: seq<Uuid>, storeOk: Uuid -> bool)
    requires Sane(s)
    ensures Sane(DeleteDefinition(s, key, cascade, order, storeOk).0)
  {
    DeleteEachSane(s, Associated(s.instances, order, key), storeOk);
    hide DeleteEach, Associated;
  }

  /** Over any run of deployments, nested deployments, deletions, starts, migrations and all other calls,
      every live instance's definition is still registered. */
  lemma {:induction false} NoOrphanInstances(s: State, log: seq<Uuid>, calls: seq<RegistryCall>)
    requires Sane(s) && NoOrphans(s) && ProperRun(s, log, calls, false)
    ensures NoOrphans(RunRegistry(s, log, calls).0)
    decreases |calls|
  {
    hide Step, Sane, Proper;
    if calls != [] {
      StepKeepsOrphans(s, log, calls[0]);
      var (s', log') := Step(s, log, calls[0]);
      NoOrphanInstances(s', log', calls[1..]);
    }
  }

  lemma FewerOrdered(defs: Definitions, key: Uuid, log: seq<Uuid>)
    requires Ordered(defs, log)
    ensures Ordered(defs - {key}, log)
  {
    var rest := defs - {key};
    assert forall k :: k in rest ==> k in defs && rest[k] == defs[k];
  }

  lemma DeletionOrdered(s: State, log: seq<Uuid>, key: Uuid, cascade: bool, order: seq<Uuid>, storeOk: Uuid -> bool)
    requires Ordered(s.definitions, log)
    ensures Ordered(DeleteDefinition(s, key, cascade, order, storeOk).0.definitions, log)
  {
    DeleteEachRemoves(s, Associated(s.instances, order, key), storeOk);
    FewerOrdered(s.definitions, key, log);
    hide DeleteEach, Associated, Ordered;
  }

  lemma StepKeepsOrder(s: State, log: seq<Uuid>, c: RegistryCall)
    requires Sane(s) && NoOrphans(s) && Ordered(s.definitions, log) && Proper(s, log, c, true)
    ensures var (s', log') := Step(s, log, c); Ordered(s'.definitions, log')
  {
    hide Apply, Sane, NoOrphans;
    match c
    case EngineCall(call) => EngineCallKeepsOrphans(s, call);
    case Deployment(d) =>
      hide Deploy;
      DeployKeeps(s.definitions, log, d, d.version);
    case Deletion(key, cascade, order, storeOk) => DeletionOrdered(s, log, key, cascade, order, storeOk);
  }

  lemma ProperWeaker(s: State, log: seq<Uuid>, c: RegistryCall)
    requires Proper(s, log, c, true)
    ensures Proper(s, log, c, false)
  {}

  /** Over any such run whose deployments bring new keys, live versions of one BPMN id stay distinct and
      ordered as deployed, and the latest definition is the most recent survivor. */
  lemma {:induction false} VersionsOrderedAsDeployed(s: State, log: seq<Uuid>, calls: seq<RegistryCall>,
      order: seq<Uuid>, id: string)
    requires Sane(s) && NoOrphans(s) && Ordered(s.definitions, log) && ProperRun(s, log, calls, true)
    ensures var (s', log') := RunRegistry(s, log, calls);
      && Ordered(s'.definitions, log')
      && (Enumerates(order, s'.definitions.Keys) ==>
         LatestOf(s'.definitions, order, id) == MostRecent(s'.definitions, log', id))
    decreases |calls|
  {
    hide Step, Sane, Proper, Ordered, NoOrphans;
    if calls == [] {
      if Enumerates(order, s.definitions.Keys) {
        LatestIsMostRecent(s.definitions, log, order, id);
      }
    } else {
      ProperWeaker(s, log, calls[0]);
      StepKeepsOrphans(s, log, calls[0]);
      StepKeepsOrder(s, log, calls[0]);
      var (s', log') := Step(s, log, calls[0]);
      VersionsOrderedAsDeployed(s', log', calls[1..], order, id);
    }
  }

  // ---- The registry as an object beside the engine ----

  class DefinitionRegistry {
    const engine: WorkflowEngine
    ghost var log: seq<Uuid>

    constructor (engine: WorkflowEngine)
      ensures this.engine == engine && log == []
    {
      this.engine, log := engine, [];
    }

    /** Walks the registered definitions for the highest version of a BPMN id. */
    method HighestVersion(id: string) returns (highest: Option<int>)
      ensures highest == Highest(engine.definitions, id)
    {
      var defs, left := engine.definitions, engine.definitions.Keys;
      highest := None;
      while left != {}
        invariant left <= defs.Keys
        invariant highest.None? ==> forall k <- defs :: k !in left ==> defs[k].id != id
        invariant highest.Some? ==>
          && (exists k <- defs :: defs[k].id == id && defs[k].version == highest.value)
          && forall k <- defs :: k !in left && defs[k].id == id ==> defs[k].version <= highest.value
        decreases |left|
      {
        var k :| k in left;
        if defs[k].id == id && (highest.None? || highest.value < defs[k].version) {
          highest := Some(defs[k].version);
        }
        left := left - {k};
      }
    }

    /** Enters a definition with its new version under its own key, then deploys its sub-processes. */
    method DeployDefinition(d: ProcessDefinition, declared: int) returns (version: int)
      modifies this, engine
      ensures (engine.definitions, log) == Deploy(old(engine.definitions), old(log), d, declared)
      ensures version == NextVersion(old(engine.definitions), d.id, declared)
      ensures engine.Model() == old(engine.Model()).(definitions := engine.definitions)
      decreases d
    {
      var highest := HighestVersion(d.id);
      version := declared;
      if highest.Some? {
        version := highest.value + 1;
      }
      engine.definitions := engine.definitions[d.key := d.(version := version, subProcesses := [])];
      log := log + [d.key];
      var k := 0;
      assert d.subProcesses[0..] == d.subProcesses;
      while k < |d.subProcesses|
        invariant 0 <= k <= |d.subProcesses|
        invariant DeployAll(engine.definitions, log, d.subProcesses[k..], version)
          == Deploy(old(engine.definitions), old(log), d, declared)
        invariant engine.Model() == old(engine.Model()).(definitions := engine.definitions)
      {
        assert d.subProcesses[k..][1..] == d.subProcesses[k + 1..];
        var subVersion := DeployDefinition(d.subProcesses[k], version);
        k := k + 1;
      }
    }

    /** Deletes a definition, its instances first when asked to. */
    method RemoveDefinition(key: Uuid, cascade: bool, order: seq<Uuid>, storeOk: Uuid -> bool) returns (r: Outcome)
      modifies engine
      ensures (engine.Model(), r) == DeleteDefinition(old(engine.Model()), key, cascade, order, storeOk)
    {
      hide DeleteInstance;
      if key !in engine.definitions {
        return Failed(NoSuchDefinition(key));
      }
      var associated := CollectAssociated(order, key);
      if associated != [] && !cascade {
        return Failed(DefinitionHasInstances(|associated|));
      }
      var k := 0;
      assert associated[0..] == associated;
      while k < |associated|
        invariant 0 <= k <= |associated|
        invariant DeleteEach(engine.Model(), associated[k..], storeOk)
          == DeleteEach(old(engine.Model()), associated, storeOk)
      {
        assert associated[k..][1..] == associated[k + 1..];
        r := engine.RemoveInstance(associated[k], storeOk(associated[k]));
        if r.Failed? {
          return;
        }
        k := k + 1;
      }
      engine.definitions := engine.definitions - {key};
      r := if storeOk(key) then Done else Failed(PersistenceError);
    }

    method CollectAssociated(order: seq<Uuid>, key: Uuid) returns (ids: seq<Uuid>)
      ensures ids == Associated(engine.instances, order, key)
    {
      ids := [];
      var k, insts := 0, engine.instances;
      assert order[0..] == order;
      assert Associated(insts, [], key) == [];
      hide Associated;
      while k < |order|
        invariant 0 <= k <= |order| && ids + Associated(insts, order[k..], key) == Associated(insts, order, key)
      {
        AssociatedNext(insts, order, k, key);
        Associative(ids, [order[k]], Associated(insts, order[k + 1..], key));
        if order[k] in insts && insts[order[k]].definitionKey == key {
          ids := ids + [order[k]];
        }
        k := k + 1;
      }
      assert order[k..] == [];
    }
  }
}
