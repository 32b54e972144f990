/** Migrating an instance to another definition (engine-core/src/engine/instance_ops.rs): all or nothing,
    well placed, and composable. */
module Migration {
  import opened Values
  import opened Definition
  import opened EngineState
  import opened Operations

  // ---- When a migration goes through ----

  /** The mapping names a node of the target for `node`, or leaves it alone and the target has it. */
  ghost predicate HasPlace(d: ProcessDefinition, mapping: map<string, string>, node: string) {
    (node in mapping && mapping[node] in d.nodes) || (node !in mapping && node in d.nodes)
  }

  /** There is a place in the target definition for every node the instance stands on. */
  ghost predicate FitsTarget(inst: Instance, d: ProcessDefinition, mapping: map<string, string>) {
    && HasPlace(d, mapping, inst.currentNode)
    && (forall t <- inst.tokens :: HasPlace(d, mapping, inst.tokens[t].currentNode))
    && (forall k :: 0 <= k < |inst.activeTokens| ==> HasPlace(d, mapping, inst.activeTokens[k].token.currentNode))
  }

  lemma {:induction false} OrphanTokenFound(inst: Instance, order: seq<Uuid>, d: ProcessDefinition,
      mapping: map<string, string>)
    ensures FirstOrphanToken(inst, order, d, mapping).None?
       <==> forall t <- order :: t in inst.tokens ==> HasPlace(d, mapping, inst.tokens[t].currentNode)
    decreases |order|
  {
    if order != [] {
      OrphanTokenFound(inst, order[1..], d, mapping);
      assert forall t <- order :: t == order[0] || t in order[1..];
    }
  }

  lemma {:induction false} OrphanActiveFound(active: seq<ActiveToken>, d: ProcessDefinition,
      mapping: map<string, string>)
    ensures FirstOrphanActive(active, d, mapping).None?
       <==> forall k :: 0 <= k < |active| ==> HasPlace(d, mapping, active[k].token.currentNode)
    decreases |active|
  {
    if active != [] {
      OrphanActiveFound(active[1..], d, mapping);
      assert forall k :: 0 < k < |active| ==> active[k] == active[1..][k - 1];
    }
  }

  /** The instance can be migrated: it exists, is live and not suspended, and fits the target. */
  ghost predicate Migratable(s: State, i: Uuid, key: Uuid, mapping: map<string, string>) {
    && key in s.definitions && i in s.instances
    && !s.instances[i].state.Terminal() && !s.instances[i].state.Suspended?
    && FitsTarget(s.instances[i], s.definitions[key], mapping)
  }

  /** A migration either goes through, exactly when every mapped node exists in the target, or fails and
      changes nothing. */
  lemma MigrationIsAllOrNothing(s: State, i: Uuid, key: Uuid, mapping: map<string, string>, order: MigrationOrder)
    requires i in s.instances ==> Enumerates(order.tokens, s.instances[i].tokens.Keys)
    ensures var (s', r) := Migrate(s, i, key, mapping, order);
      (r.Done? <==> Migratable(s, i, key, mapping)) && (r.Failed? ==> s' == s)
  {
    if i in s.instances && key in s.definitions {
      OrphanTokenFound(s.instances[i], order.tokens, s.definitions[key], mapping);
      OrphanActiveFound(s.instances[i].activeTokens, s.definitions[key], mapping);
      hide FirstOrphanToken, FirstOrphanActive, Migrated;
    }
  }

  // ---- Where a migration leads ----

  /** The instance stands on nodes of its definition. */
  ghost predicate WellPlaced(inst: Instance, d: ProcessDefinition) {
    && inst.currentNode in d.nodes
    && (forall t <- inst.tokens :: inst.tokens[t].currentNode in d.nodes)
    && (forall k :: 0 <= k < |inst.activeTokens| ==> inst.activeTokens[k].token.currentNode in d.nodes)
  }

  lemma {:induction false} RemapActiveAt(mapping: map<string, string>, active: seq<ActiveToken>, k: nat)
    requires k < |active|
    ensures |RemapActive(mapping, active)| == |active|
    ensures RemapActive(mapping, active)[k] == active[k].(token := RemapToken(mapping, active[k].token))
    decreases |active|
  {
    if k > 0 {
      RemapActiveAt(mapping, active[1..], k - 1);
    } else if |active| > 1 {
      RemapActiveAt(mapping, active[1..], 0);
    }
  }

  /** After a migration that went through, the instance runs on the target definition and stands on nodes
      of it. */
  lemma MigratedIsWellPlaced(s: State, i: Uuid, key: Uuid, mapping: map<string, string>, order: MigrationOrder)
    requires Migratable(s, i, key, mapping)
    ensures var s' := Migrated(s, i, key, mapping, order);
      s'.instances[i].definitionKey == key && WellPlaced(s'.instances[i], s'.definitions[key])
  {
    var inst := s.instances[i];
    hide RemapKeys;
    forall k | 0 <= k < |RemapActive(mapping, inst.activeTokens)|
      ensures RemapActive(mapping, inst.activeTokens)[k].token.currentNode in s.definitions[key].nodes
    {
      RemapActiveSize(mapping, inst.activeTokens);
      RemapActiveAt(mapping, inst.activeTokens, k);
    }
  }

  lemma {:induction false} RemapActiveSize(mapping: map<string, string>, active: seq<ActiveToken>)
    ensures |RemapActive(mapping, active)| == |active|
    decreases |active|
  {
    if active != [] {
      RemapActiveSize(mapping, active[1..]);
    }
  }

  /** `now` is where the mapping takes `was`: the node it names, or the same node when it names none. */
  ghost predicate Follows(mapping: map<string, string>, was: string, now: string) {
    (was in mapping ==> now == mapping[was]) && (was !in mapping ==> now == was)
  }

  /** The token follows the mapping, and is otherwise the same. */
  ghost predicate TokenFollows(mapping: map<string, string>, was: Token, now: Token) {
    now == was.(currentNode := now.currentNode) && Follows(mapping, was.currentNode, now.currentNode)
  }

  /** The instance follows the mapping to definition `key`; its variables, business key and state are the
      same, and so are its tokens but for their nodes. */
  ghost predicate InstanceFollows(mapping: map<string, string>, key: Uuid, was: Instance, now: Instance) {
    && now == was.(definitionKey := key, currentNode := now.currentNode, tokens := now.tokens,
                   activeTokens := now.activeTokens, joinBarriers := now.joinBarriers,
                     multiInstance := now.multiInstance)
    && Follows(mapping, was.currentNode, now.currentNode)
    && now.tokens.Keys == was.tokens.Keys
    && (forall t <- was.tokens :: TokenFollows(mapping, was.tokens[t], now.tokens[t]))
    && |now.activeTokens| == |was.activeTokens|
    && (forall k :: 0 <= k < |was.activeTokens| ==>
          && now.activeTokens[k] == was.activeTokens[k].(token := now.activeTokens[k].token)
          && TokenFollows(mapping, was.activeTokens[k].token, now.activeTokens[k].token))
  }

  /** The entries of instance `i` follow the mapping, and all others are the same. */
  ghost predicate EntriesFollow<K>(mapping: map<string, string>, was: map<Uuid, Entry<K>>, now: map<Uuid, Entry<K>>,
      i: Uuid)
  {
    && now.Keys == was.Keys
    && (forall id <- was :: was[id].instanceId != i ==> now[id] == was[id])
    && (forall id <- was :: was[id].instanceId == i ==>
          now[id] == was[id].(nodeId := now[id].nodeId, data := now[id].data)
          && Follows(mapping, was[id].nodeId, now[id].nodeId))
  }

  ghost predicate SameData<K>(was: map<Uuid, Entry<K>>, now: map<Uuid, Entry<K>>) {
    forall id <- was :: id in now && now[id].data == was[id].data
  }

  /** The service tasks of the instance belong to the new definition. */
  ghost predicate Rekeyed(was: ServiceTasks, now: ServiceTasks, i: Uuid, key: Uuid) {
    forall id <- was :: id in now && (was[id].instanceId == i ==> now[id].data == was[id].data.(definitionKey := key))
  }

  /** Every value of the new table comes from a key that the mapping takes to its new key, and every old
      key leads to one. */
  ghost predicate TableFollows<V>(mapping: map<string, string>, was: map<string, V>, now: map<string, V>) {
    && (forall k' <- now :: exists k <- was :: Follows(mapping, k, k') && now[k'] == was[k])
    && (forall k <- was :: exists k' <- now :: Follows(mapping, k, k'))
  }

  lemma RemapFollows(mapping: map<string, string>, was: string, now: string)
    ensures Follows(mapping, was, now) <==> Remap(mapping, was) == now
  {}

  lemma {:induction false} ValueComesFrom<V>(mapping: map<string, string>, table: map<string, V>, order: seq<string>,
      now: string) returns (was: string)
    requires now in RemapKeys(mapping, table, order)
    ensures was in table && Follows(mapping, was, now) && RemapKeys(mapping, table, order)[now] == table[was]
    decreases |order|
  {
    was := order[|order| - 1];
    if was !in table || Remap(mapping, was) != now {
      was := ValueComesFrom(mapping, table, order[..|order| - 1], now);
    }
  }

  lemma {:induction false} KeyIsMapped<V>(mapping: map<string, string>, table: map<string, V>, order: seq<string>,
      was: string)
    requires was in table && was in order
    ensures Remap(mapping, was) in RemapKeys(mapping, table, order)
    decreases |order|
  {
    var front, last := order[..|order| - 1], order[|order| - 1];
    assert order == front + [last];
    if was != last {
      KeyIsMapped(mapping, table, front, was);
    }
  }

  lemma RemapKeysFollows<V>(mapping: map<string, string>, table: map<string, V>, order: seq<string>)
    requires Enumerates(order, table.Keys)
    ensures TableFollows(mapping, table, RemapKeys(mapping, table, order))
  {
    var now := RemapKeys(mapping, table, order);
    hide RemapKeys, Follows, NoDup;
    forall k' | k' in now ensures exists k <- table :: Follows(mapping, k, k') && now[k'] == table[k] {
      var k := ValueComesFrom(mapping, table, order, k');
    }
    forall k | k in table ensures exists k' <- now :: Follows(mapping, k, k') {
      assert k in table.Keys;
      KeyIsMapped(mapping, table, order, k);
      RemapFollows(mapping, k, Remap(mapping, k));
    }
  }

  lemma InstanceMigrates(inst: Instance, key: Uuid, mapping: map<string, string>, order: MigrationOrder)
    ensures InstanceFollows(mapping, key, inst, MigratedInstance(inst, key, mapping, order))
  {
    hide RemapKeys;
    RemapActiveSize(mapping, inst.activeTokens);
    forall k | 0 <= k < |inst.activeTokens|
      ensures RemapActive(mapping, inst.activeTokens)[k]
        == inst.activeTokens[k].(token := RemapToken(mapping, inst.activeTokens[k].token))
    {
      RemapActiveAt(mapping, inst.activeTokens, k);
    }
    hide RemapActive;
  }

  lemma EntriesMigrate<K>(m: map<Uuid, Entry<K>>, i: Uuid, mapping: map<string, string>)
    ensures EntriesFollow(mapping, m, RemapEntries(m, i, mapping), i) && SameData(m, RemapEntries(m, i, mapping))
  {}

  lemma ServicesMigrate(m: ServiceTasks, i: Uuid, mapping: map<string, string>, key: Uuid)
    ensures var m' := RemapServices(m, i, mapping, key); EntriesFollow(mapping, m, m', i) && Rekeyed(m, m', i, key)
  {}

  /** A migration that goes through follows its mapping: the node the instance shows, its tokens, its
      branches, its pending work and its tables stand where the mapping takes them, and everything else
      about the instance and all other instances is the same. */
  lemma MigrationFollowsMapping(s: State, i: Uuid, key: Uuid, mapping: map<string, string>, order: MigrationOrder)
    requires Migratable(s, i, key, mapping) && Enumerates(order.tokens, s.instances[i].tokens.Keys)
    requires Enumerates(order.barriers, s.instances[i].joinBarriers.Keys)
    requires Enumerates(order.multiInstance, s.instances[i].multiInstance.Keys)
    ensures var (s', r) := Migrate(s, i, key, mapping, order);
      && r == Done && i in s'.instances
      && s' == s.(instances := s.instances[i := s'.instances[i]], userTasks := s'.userTasks,
                  serviceTasks := s'.serviceTasks, timers := s'.timers, catches := s'.catches)
      && InstanceFollows(mapping, key, s.instances[i], s'.instances[i])
      && TableFollows(mapping, s.instances[i].joinBarriers, s'.instances[i].joinBarriers)
      && TableFollows(mapping, s.instances[i].multiInstance, s'.instances[i].multiInstance)
      && EntriesFollow(mapping, s.userTasks, s'.userTasks, i) && SameData(s.userTasks, s'.userTasks)
      && EntriesFollow(mapping, s.serviceTasks, s'.serviceTasks, i) && Rekeyed(s.serviceTasks, s'.serviceTasks, i, key)
      && EntriesFollow(mapping, s.timers, s'.timers, i) && SameData(s.timers, s'.timers)
      && EntriesFollow(mapping, s.catches, s'.catches, i) && SameData(s.catches, s'.catches)
  {
    MigrationIsAllOrNothing(s, i, key, mapping, order);
    hide Migratable, MigrationError, InstanceFollows, TableFollows, EntriesFollow, MigratedInstance, RemapEntries;
    hide RemapServices, SameData, Rekeyed;
    var inst := s.instances[i];
    assert Migrate(s, i, key, mapping, order) == (Migrated(s, i, key, mapping, order), Done);
    InstanceMigrates(inst, key, mapping, order);
    RemapKeysFollows(mapping, inst.joinBarriers, order.barriers);
    RemapKeysFollows(mapping, inst.multiInstance, order.multiInstance);
    TablesOf(inst, key, mapping, order);
    EntriesMigrate(s.userTasks, i, mapping);
    ServicesMigrate(s.serviceTasks, i, mapping, key);
    EntriesMigrate(s.timers, i, mapping);
    EntriesMigrate(s.catches, i, mapping);
  }

  lemma TablesOf(inst: Instance, key: Uuid, mapping: map<string, string>, order: MigrationOrder)
    ensures var inst' := MigratedInstance(inst, key, mapping, order);
      && inst'.joinBarriers == RemapKeys(mapping, inst.joinBarriers, order.barriers)
      && inst'.multiInstance == RemapKeys(mapping, inst.multiInstance, order.multiInstance)
  {
    hide RemapKeys, RemapActive, RemapToken, Remap;
  }

  /** An entry agrees with its token: both stand on the same node. */
  ghost predicate Agrees<K>(insts: Instances, e: Entry<K>) {
    && e.instanceId in insts && e.tokenId in insts[e.instanceId].tokens
    && insts[e.instanceId].tokens[e.tokenId].currentNode == e.nodeId
  }

  /** A task that agreed with its token's node still does, in the migrated instance and in every other. */
  lemma MigrationKeepsAgreement(s: State, i: Uuid, key: Uuid, mapping: map<string, string>, order: MigrationOrder)
    requires i in s.instances
    ensures var s' := Migrated(s, i, key, mapping, order);
      && (forall id <- s.userTasks :: Agrees(s.instances, s.userTasks[id]) ==>
         id in s'.userTasks && Agrees(s'.instances, s'.userTasks[id]))
      && (forall id <- s.serviceTasks :: Agrees(s.instances, s.serviceTasks[id]) ==>
            id in s'.serviceTasks && Agrees(s'.instances, s'.serviceTasks[id]))
      && (forall id <- s.serviceTasks :: s.serviceTasks[id].instanceId == i ==>
         s'.serviceTasks[id].data.definitionKey == key)
  {
    hide RemapKeys, RemapActive, Remap;
  }

  lemma RemapKeepsReferences<K>(m: map<Uuid, Entry<K>>, i: Uuid, mapping: map<string, string>)
    ensures var m' := RemapEntries(m, i, mapping);
      forall id <- m' :: id in m && m'[id].instanceId == m[id].instanceId && m'[id].tokenId == m[id].tokenId
  {}

  lemma RemapServicesKeepsReferences(m: ServiceTasks, i: Uuid, mapping: map<string, string>, key: Uuid)
    ensures var m' := RemapServices(m, i, mapping, key);
      forall id <- m' :: id in m && m'[id].instanceId == m[id].instanceId && m'[id].tokenId == m[id].tokenId
  {}

  /** No entry loses its instance or token by a migration. */
  lemma MigrationKeepsReferences(s: State, i: Uuid, key: Uuid, mapping: map<string, string>, order: MigrationOrder)
    requires NoDanglingEntries(s)
    ensures NoDanglingEntries(Migrate(s, i, key, mapping, order).0)
  {
    if i in s.instances {
      MigratedTokens(s.instances[i], key, mapping, order);
      RemapKeepsReferences(s.userTasks, i, mapping);
      RemapServicesKeepsReferences(s.serviceTasks, i, mapping, key);
      RemapKeepsReferences(s.timers, i, mapping);
      RemapKeepsReferences(s.catches, i, mapping);
      hide MigratedInstance, RemapEntries, RemapServices, FirstOrphan;
      var s' := Migrated(s, i, key, mapping, order);
      assert forall j, t :: HasToken(s, j, t) ==> HasToken(s', j, t);
      assert NoDanglingEntries(s');
    }
  }

  lemma MigratedTokens(inst: Instance, key: Uuid, mapping: map<string, string>, order: MigrationOrder)
    ensures MigratedInstance(inst, key, mapping, order).tokens.Keys == inst.tokens.Keys
  {
    hide Remap;
  }

  // ---- Join barriers ----

  function Image(mapping: map<string, string>, keys: set<string>): set<string> {
    set k | k in keys :: Remap(mapping, k)
  }

  ghost predicate InjectiveOn(mapping: map<string, string>, keys: set<string>) {
    forall a, b :: a in keys && b in keys && Remap(mapping, a) == Remap(mapping, b) ==> a == b
  }

  /** A table under mapped keys has the mapped keys, and each value comes from a key mapped there. */
  lemma {:induction false} RemapKeysSound<V>(mapping: map<string, string>, table: map<string, V>, order: seq<string>)
    requires forall k <- order :: k in table
    ensures var r := RemapKeys(mapping, table, order);
      && r.Keys == (set k | k in order :: Remap(mapping, k))
      && forall k' <- r :: exists k <- order :: Remap(mapping, k) == k' && r[k'] == table[k]
    decreases |order|
  {
    if order != [] {
      var front, last := order[..|order| - 1], order[|order| - 1];
      assert order == front + [last];
      RemapKeysSound(mapping, table, front);
    }
  }

  /** When no two barriers are mapped to one gateway, each is found under its mapped gateway. */
  lemma BarriersKept<V>(mapping: map<string, string>, table: map<string, V>, order: seq<string>)
    requires Enumerates(order, table.Keys) && InjectiveOn(mapping, table.Keys)
    ensures var r := RemapKeys(mapping, table, order);
      r.Keys == Image(mapping, table.Keys) && forall k <- table :: r[Remap(mapping, k)] == table[k]
  {
    RemapKeysSound(mapping, table, order);
    hide RemapKeys;
  }

  lemma {:induction false} ImageSize(mapping: map<string, string>, keys: set<string>)
    ensures |Image(mapping, keys)| <= |keys| && (|Image(mapping, keys)| == |keys| <==> InjectiveOn(mapping, keys))
    decreases |keys|
  {
    if keys == {} {
      assert Image(mapping, keys) == {};
    } else {
      var k :| k in keys;
      var rest := keys - {k};
      ImageSize(mapping, rest);
      assert keys == rest + {k};
      assert Image(mapping, keys) == Image(mapping, rest) + {Remap(mapping, k)};
      if Remap(mapping, k) in Image(mapping, rest) {
        assert Image(mapping, keys) == Image(mapping, rest);
        var a :| a in rest && Remap(mapping, a) == Remap(mapping, k);
        assert !InjectiveOn(mapping, keys);
      } else {
        assert InjectiveOn(mapping, rest) ==> InjectiveOn(mapping, keys);
        assert InjectiveOn(mapping, keys) ==> InjectiveOn(mapping, rest);
      }
    }
  }

  /** A migration keeps the number of join barriers exactly when no two of them are mapped to one
      gateway; otherwise tokens that arrived at the lost barrier wait for ever. */
  lemma NoBarrierLostIffInjective(s: State, i: Uuid, key: Uuid, mapping: map<string, string>, order: MigrationOrder)
    requires i in s.instances && Enumerates(order.barriers, s.instances[i].joinBarriers.Keys)
    ensures var barriers := s.instances[i].joinBarriers;
      |Migrated(s, i, key, mapping, order).instances[i].joinBarriers| == |barriers| <==>
        InjectiveOn(mapping, barriers.Keys)
  {
    var barriers := s.instances[i].joinBarriers;
    RemapKeysSound(mapping, barriers, order.barriers);
    ImageSize(mapping, barriers.Keys);
    var r := RemapKeys(mapping, barriers, order.barriers);
    assert r.Keys == Image(mapping, barriers.Keys);
    assert |r| == |r.Keys| && |barriers| == |barriers.Keys|;
    hide RemapKeys, Remap, RemapActive;
  }

  /** A barrier names its own gateway. */
  ghost predicate NamesItself(barriers: map<string, JoinBarrier>, k: string) {
    k in barriers ==> barriers[k].gatewayNodeId == k
  }

  /** The gateway id inside a barrier and the tokens that arrived are not mapped: after the migration a
      barrier still names its own gateway exactly when the mapping leaves that gateway where it is. */
  lemma BarrierNamesStayBehind(s: State, i: Uuid, key: Uuid, mapping: map<string, string>, order: MigrationOrder,
      k: string)
    requires i in s.instances && Enumerates(order.barriers, s.instances[i].joinBarriers.Keys)
    requires k in s.instances[i].joinBarriers && NamesItself(s.instances[i].joinBarriers, k)
    requires InjectiveOn(mapping, s.instances[i].joinBarriers.Keys)
    ensures var barriers' := Migrated(s, i, key, mapping, order).instances[i].joinBarriers;
      && Remap(mapping, k) in barriers'
      && barriers'[Remap(mapping, k)].arrivedTokens == s.instances[i].joinBarriers[k].arrivedTokens
      && (NamesItself(barriers', Remap(mapping, k)) <==> Remap(mapping, k) == k)
  {
    BarriersKept(mapping, s.instances[i].joinBarriers, order.barriers);
    assert Remap(mapping, k) in Image(mapping, s.instances[i].joinBarriers.Keys);
    hide RemapKeys, RemapActive;
  }

  /** The token parked in `WaitingOnCallActivity` keeps its node. So it stands on a node of the target
      exactly when its old node exists there, and where the migration puts that node exactly when the
      mapping leaves it alone; the node the instance shows is mapped. */
  lemma ParkedTokenIsNotMapped(s: State, i: Uuid, key: Uuid, mapping: map<string, string>, order: MigrationOrder)
    requires Migratable(s, i, key, mapping) && s.instances[i].state.WaitingOnCallActivity?
    ensures var parked, inst := s.instances[i].state.token, Migrate(s, i, key, mapping, order).0.instances[i];
      && inst.definitionKey == key && inst.state == s.instances[i].state
      && inst.currentNode == Remap(mapping, s.instances[i].currentNode)
      && (inst.state.token.currentNode in s.definitions[inst.definitionKey].nodes <==>
         parked.currentNode in s.definitions[key].nodes)
      && (inst.state.token.currentNode == Remap(mapping, parked.currentNode) <==>
         Remap(mapping, parked.currentNode) == parked.currentNode)
  {
    OrphanTokenFound(s.instances[i], order.tokens, s.definitions[key], mapping);
    OrphanActiveFound(s.instances[i].activeTokens, s.definitions[key], mapping);
    assert Migrate(s, i, key, mapping, order).0 == Migrated(s, i, key, mapping, order) by {
      hide FirstOrphanToken, FirstOrphanActive, Migrated;
    }
    hide RemapKeys, RemapActive, Remap, FirstOrphan, Migrate;
  }

  // ---- One migration after another ----

  /** First `m1`, then `m2`. */
  function Composed(m1: map<string, string>, m2: map<string, string>): map<string, string> {
    map n | n in m1.Keys + m2.Keys :: Remap(m2, Remap(m1, n))
  }

  lemma RemapComposed(m1: map<string, string>, m2: map<string, string>, node: string)
    ensures Remap(Composed(m1, m2), node) == Remap(m2, Remap(m1, node))
  {}

  lemma {:induction false} RemapActiveComposed(m1: map<string, string>, m2: map<string, string>,
      active: seq<ActiveToken>)
    ensures RemapActive(m2, RemapActive(m1, active)) == RemapActive(Composed(m1, m2), active)
    decreases |active|
  {
    if active != [] {
      RemapComposed(m1, m2, active[0].token.currentNode);
      RemapActiveComposed(m1, m2, active[1..]);
      assert RemapActive(m1, active)[1..] == RemapActive(m1, active[1..]);
    }
  }

  lemma RemapEntriesComposed<K>(m: map<Uuid, Entry<K>>, i: Uuid, m1: map<string, string>, m2: map<string, string>)
    ensures RemapEntries(RemapEntries(m, i, m1), i, m2) == RemapEntries(m, i, Composed(m1, m2))
  {
    forall id | id in m ensures Remap(Composed(m1, m2), m[id].nodeId) == Remap(m2, Remap(m1, m[id].nodeId)) {
      RemapComposed(m1, m2, m[id].nodeId);
    }
    hide Remap, Composed;
  }

  lemma RemapServicesComposed(m: ServiceTasks, i: Uuid, m1: map<string, string>, m2: map<string, string>, k1: Uuid,
      k2: Uuid)
    ensures RemapServices(RemapServices(m, i, m1, k1), i, m2, k2) == RemapServices(m, i, Composed(m1, m2), k2)
  {
    forall id | id in m ensures Remap(Composed(m1, m2), m[id].nodeId) == Remap(m2, Remap(m1, m[id].nodeId)) {
      RemapComposed(m1, m2, m[id].nodeId);
    }
    hide Remap, Composed;
  }

  lemma RemapTokensComposed(inst: Instance, m1: map<string, string>, m2: map<string, string>, k1: Uuid, k2: Uuid,
                            o1: MigrationOrder, o2: MigrationOrder, o: MigrationOrder)
    ensures MigratedInstance(MigratedInstance(inst, k1, m1, o1), k2, m2, o2).tokens
         == MigratedInstance(inst, k2, Composed(m1, m2), o).tokens
  {
    forall t | t in inst.tokens
      ensures Remap(Composed(m1, m2), inst.tokens[t].currentNode) == Remap(m2, Remap(m1, inst.tokens[t].currentNode))
    {
      RemapComposed(m1, m2, inst.tokens[t].currentNode);
    }
    hide Remap, Composed, RemapKeys, RemapActive;
  }

  lemma InstanceComposed(inst: Instance, m1: map<string, string>, m2: map<string, string>, k1: Uuid, k2: Uuid,
                         o1: MigrationOrder, o2: MigrationOrder, o: MigrationOrder)
    ensures var twice, once := MigratedInstance(MigratedInstance(inst, k1, m1, o1), k2, m2, o2),
      MigratedInstance(inst, k2, Composed(m1, m2), o);
      twice == once.(joinBarriers := twice.joinBarriers, multiInstance := twice.multiInstance)
  {
    RemapTokensComposed(inst, m1, m2, k1, k2, o1, o2, o);
    RemapActiveComposed(m1, m2, inst.activeTokens);
    RemapComposed(m1, m2, inst.currentNode);
    hide Remap, Composed, RemapKeys, RemapActive, RemapToken;
  }

  /** Migrating by `m1` and then by `m2` gives the same nodes everywhere as one migration by their
      composition; only the tables of joins and multi-instances can differ. */
  lemma MigrationsCompose(s: State, i: Uuid, m1: map<string, string>, m2: map<string, string>, k1: Uuid, k2: Uuid,
                          o1: MigrationOrder, o2: MigrationOrder, o: MigrationOrder)
    requires i in s.instances
    ensures var twice, once := Migrated(Migrated(s, i, k1, m1, o1), i, k2, m2, o2),
      Migrated(s, i, k2, Composed(m1, m2), o);
      var a := twice.instances[i];
      && twice == once.WithInstance(i, a)
      && a == once.instances[i].(joinBarriers := a.joinBarriers, multiInstance := a.multiInstance)
  {
    InstanceComposed(s.instances[i], m1, m2, k1, k2, o1, o2, o);
    RemapEntriesComposed(s.userTasks, i, m1, m2);
    RemapServicesComposed(s.serviceTasks, i, m1, m2, k1, k2);
    RemapEntriesComposed(s.timers, i, m1, m2);
    RemapEntriesComposed(s.catches, i, m1, m2);
    hide MigratedInstance, RemapEntries, RemapServices, Composed;
    var once, twice := Migrated(s, i, k2, Composed(m1, m2), o), Migrated(Migrated(s, i, k1, m1, o1), i, k2, m2, o2);
    assert twice.instances == once.instances[i := twice.instances[i]];
  }

  lemma ImageComposed(m1: map<string, string>, m2: map<string, string>, keys: set<string>)
    ensures Image(m2, Image(m1, keys)) == Image(Composed(m1, m2), keys)
    ensures InjectiveOn(m1, keys) && InjectiveOn(m2, Image(m1, keys)) ==> InjectiveOn(Composed(m1, m2), keys)
  {
    forall k ensures Remap(Composed(m1, m2), k) == Remap(m2, Remap(m1, k)) {
      RemapComposed(m1, m2, k);
    }
    hide Composed, Remap;
    assert forall k <- keys :: Remap(m1, k) in Image(m1, keys);
  }

  /** When neither step merges keys, the tables agree as well. */
  lemma TablesCompose<V>(table: map<string, V>, m1: map<string, string>, m2: map<string, string>, o1: seq<string>,
      o2: seq<string>, o: seq<string>)
    requires Enumerates(o1, table.Keys) && Enumerates(o, table.Keys) && Enumerates(o2, RemapKeys(m1, table, o1).Keys)
    requires InjectiveOn(m1, table.Keys) && InjectiveOn(m2, RemapKeys(m1, table, o1).Keys)
    ensures RemapKeys(m2, RemapKeys(m1, table, o1), o2) == RemapKeys(Composed(m1, m2), table, o)
  {
    hide Composed, RemapKeys, Remap, InjectiveOn, Enumerates, Image;
    var once := RemapKeys(m1, table, o1);
    BarriersKept(m1, table, o1);
    BarriersKept(m2, once, o2);
    ImageComposed(m1, m2, table.Keys);
    BarriersKept(Composed(m1, m2), table, o);
    var a, b := RemapKeys(m2, once, o2), RemapKeys(Composed(m1, m2), table, o);
    assert a.Keys == b.Keys;
    forall x | x in b ensures a[x] == b[x] {
      var k := Preimage(Composed(m1, m2), table.Keys, x);
      RemapComposed(m1, m2, k);
      RemapInImage(m1, table.Keys, k);
    }
  }

  lemma Preimage(mapping: map<string, string>, keys: set<string>, x: string) returns (k: string)
    requires x in Image(mapping, keys)
    ensures k in keys && Remap(mapping, k) == x
  {
    k :| k in keys && Remap(mapping, k) == x;
  }

  lemma RemapInImage(mapping: map<string, string>, keys: set<string>, k: string)
    requires k in keys
    ensures Remap(mapping, k) in Image(mapping, keys)
  {}
}
