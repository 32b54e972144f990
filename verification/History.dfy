/** The difference between two states of an instance, and replaying it (engine-core/src/history/mod.rs). */
module History {
  import opened Values
  import opened EngineState
  import opened Utf8

  /** Removed variables are recorded by name only. */
  datatype VariableDiff = VariableDiff(
    added: Variables,
    removed: seq<string>,
    changed: map<string, (Value, Value)>)

  datatype HistoryDiff = HistoryDiff(
    variables: Option<VariableDiff>,
    status: Option<(InstanceState, InstanceState)>,
    currentNode: Option<(string, string)>)
  {
    predicate IsEmpty() {
      variables.None? && status.None? && currentNode.None?
    }
  }

  /** The parts of an instance a diff looks at. */
  datatype Snapshot = Snapshot(state: InstanceState, currentNode: string, variables: Variables)

  function Added(was: Variables, now: Variables): Variables {
    map k | k in now && k !in was :: Truncate(now[k])
  }

  function Changed(was: Variables, now: Variables): map<string, (Value, Value)> {
    map k | k in was && k in now && was[k] != now[k] :: (Truncate(was[k]), Truncate(now[k]))
  }

  function Removed(order: seq<string>, now: Variables): seq<string> {
    if order == [] then [] else (if order[0] in now then [] else [order[0]]) + Removed(order[1..], now)
  }

  /** The variable diff, with the old variables walked in `order`; absent when nothing differs. */
  function DiffVariables(was: Variables, now: Variables, order: seq<string>): Option<VariableDiff> {
    var d := VariableDiff(Added(was, now), Removed(order, now), Changed(was, now));
    if d.added == map[] && d.removed == [] && d.changed == map[] then None else Some(d)
  }

  function Diff(was: Snapshot, now: Snapshot, order: seq<string>): HistoryDiff {
    HistoryDiff(
      DiffVariables(was.variables, now.variables, order),
      if was.state != now.state then Some((was.state, now.state)) else None,
      if was.currentNode != now.currentNode then Some((was.currentNode, now.currentNode)) else None)
  }

  /** A diff shows the states, and the nodes, before and after, exactly when they differ. */
  lemma DiffShowsBeforeAndAfter(was: Snapshot, now: Snapshot, order: seq<string>)
    ensures var d := Diff(was, now, order);
      && (d.status.Some? <==> was.state != now.state)
      && (d.status.Some? ==> d.status.value.0 == was.state && d.status.value.1 == now.state)
      && (d.currentNode.Some? <==> was.currentNode != now.currentNode)
      && (d.currentNode.Some? ==> d.currentNode.value.0 == was.currentNode && d.currentNode.value.1 == now.currentNode)
  {}

  // ---- Replaying ----

  function Elements(s: seq<string>): set<string> {
    set x | x in s
  }

  /** Applies a diff to the variables before. */
  function Patch(was: Variables, d: Option<VariableDiff>): Variables {
    match d
    case None => was
    case Some(d) =>
      (was - Elements(d.removed)) + (map k | k in d.changed :: d.changed[k].1) + d.added
  }

  /** Un-applies a diff from the variables after. The values of removed variables are not in it. */
  function Unpatch(now: Variables, d: Option<VariableDiff>): Variables {
    match d
    case None => now
    case Some(d) => (now - d.added.Keys) + (map k | k in d.changed :: d.changed[k].0)
  }

  lemma {:induction false} RemovedIs(order: seq<string>, now: Variables)
    ensures forall k :: k in Removed(order, now) <==> k in order && k !in now
    ensures Removed(order, now) == [] <==> forall k <- order :: k in now
    decreases |order|
  {
    if order != [] {
      RemovedIs(order[1..], now);
      assert forall k :: k in order <==> k == order[0] || k in order[1..];
    }
  }

  /** Added, removed and changed variables are disjoint. */
  lemma DiffPartsDisjoint(was: Variables, now: Variables, order: seq<string>)
    requires Enumerates(order, was.Keys) && DiffVariables(was, now, order).Some?
    ensures var d := DiffVariables(was, now, order).value;
      d.added.Keys !! d.changed.Keys && Elements(d.removed) !! d.added.Keys + d.changed.Keys
      && d.added.Keys == now.Keys - was.Keys && Elements(d.removed) == was.Keys - now.Keys
      && forall k :: k in d.changed <==> k in was && k in now && was[k] != now[k]
  {
    RemovedIs(order, now);
  }

  /** The variable diff is absent exactly when the variables are equal. */
  lemma DiffAbsentIffEqual(was: Variables, now: Variables, order: seq<string>)
    requires Enumerates(order, was.Keys)
    ensures DiffVariables(was, now, order).None? <==> was == now
  {
    RemovedIs(order, now);
    if DiffVariables(was, now, order).None? {
      forall k | k in was ensures k in now && now[k] == was[k] {
        assert k !in Removed(order, now);
        assert k !in Changed(was, now).Keys;
      }
      forall k | k in now ensures k in was {
        assert k !in Added(was, now).Keys;
      }
    }
    if was == now {
      assert Added(was, now) == map[] && Changed(was, now) == map[];
    }
  }

  /** The whole diff is empty exactly when nothing it looks at changed. */
  lemma EmptyIffUnchanged(was: Snapshot, now: Snapshot, order: seq<string>)
    requires Enumerates(order, was.variables.Keys)
    ensures Diff(was, now, order).IsEmpty() <==> was == now
  {
    DiffAbsentIffEqual(was.variables, now.variables, order);
  }

  /** The diff keeps the value of `k` as it is after the change. */
  predicate KeepsNew(was: Variables, now: Variables, k: string) {
    k in now && (k !in was || was[k] != now[k]) ==> Truncate(now[k]) == now[k]
  }

  /** What patching makes of each variable. */
  lemma Patched(was: Variables, now: Variables, order: seq<string>)
    requires Enumerates(order, was.Keys) && was != now
    ensures var p := Patch(was, DiffVariables(was, now, order));
      && (forall k :: k in p <==> k in now)
      && forall k <- now :: p[k] == if k !in was || was[k] != now[k] then Truncate(now[k]) else now[k]
  {
    hide Truncate;
    RemovedIs(order, now);
    DiffAbsentIffEqual(was, now, order);
    var d := DiffVariables(was, now, order).value;
    var kept := was - Elements(d.removed);
    assert forall k :: k in kept <==> k in was && k in now;
    hide Removed;
  }

  /** Patching the old variables gives the new ones exactly when no value that was added or changed was
      truncated. */
  lemma PatchReplays(was: Variables, now: Variables, order: seq<string>)
    requires Enumerates(order, was.Keys)
    ensures Patch(was, DiffVariables(was, now, order)) == now <==> forall k <- now :: KeepsNew(was, now, k)
  {
    hide Truncate, Removed;
    DiffAbsentIffEqual(was, now, order);
    if was != now {
      Patched(was, now, order);
      hide Patch, DiffVariables;
    }
  }

  /** The diff keeps the value of `k` as it was before the change. */
  predicate KeepsOld(was: Variables, now: Variables, k: string) {
    k in now && (k in was && was[k] != now[k] ==> Truncate(was[k]) == was[k])
  }

  /** What un-applying makes of each variable. */
  lemma Unpatched(was: Variables, now: Variables, order: seq<string>)
    requires Enumerates(order, was.Keys) && was != now
    ensures var u := Unpatch(now, DiffVariables(was, now, order));
      && (forall k :: k in u <==> k in was && k in now)
      && forall k <- u :: u[k] == if was[k] != now[k] then Truncate(was[k]) else was[k]
  {
    hide Truncate, Removed;
    DiffAbsentIffEqual(was, now, order);
    var d := DiffVariables(was, now, order).value;
    var kept := now - d.added.Keys;
    assert forall k :: k in kept <==> k in was && k in now;
  }

  /** Un-applying the diff gives the old variables back exactly when no variable was removed and no value
      that was changed was truncated: a removed value cannot be brought back. */
  lemma UnpatchRestores(was: Variables, now: Variables, order: seq<string>)
    requires Enumerates(order, was.Keys)
    ensures Unpatch(now, DiffVariables(was, now, order)) == was <==> forall k <- was :: KeepsOld(was, now, k)
  {
    hide Truncate, Removed;
    DiffAbsentIffEqual(was, now, order);
    if was != now {
      Unpatched(was, now, order);
      hide Unpatch, DiffVariables;
    }
  }

  // ---- Runs of states ----

  /** The diffs of a run of states, each from one state to the next; `orders(k)` is how the variables of
      the `k`-th state are walked. */
  function DiffsOf(states: seq<Variables>, orders: nat -> seq<string>, from: nat): seq<Option<VariableDiff>>
    decreases |states|
  {
    if |states| < 2 then []
    else [DiffVariables(states[0], states[1], orders(from))] + DiffsOf(states[1..], orders, from + 1)
  }

  function PatchAll(vars: Variables, diffs: seq<Option<VariableDiff>>): Variables
    decreases |diffs|
  {
    if diffs == [] then vars else PatchAll(Patch(vars, diffs[0]), diffs[1..])
  }

  ghost predicate KeepsAllNew(was: Variables, now: Variables) {
    forall k <- now :: KeepsNew(was, now, k)
  }

  /** No value that is added or changed from one state to the next is truncated. */
  ghost predicate NothingTruncated(states: seq<Variables>) {
    forall n :: 0 <= n < |states| - 1 ==> KeepsAllNew(states[n], states[n + 1])
  }

  /** Folding the diffs of any run of states over the first reaches the last. */
  lemma {:induction false} ReplayReachesTheLast(states: seq<Variables>, orders: nat -> seq<string>, from: nat)
    requires states != [] && NothingTruncated(states)
    requires forall n :: 0 <= n < |states| ==> Enumerates(orders(from + n), states[n].Keys)
    ensures PatchAll(states[0], DiffsOf(states, orders, from)) == states[|states| - 1]
    decreases |states|
  {
    if |states| > 1 {
      assert Enumerates(orders(from + 0), states[0].Keys);
      assert KeepsAllNew(states[0], states[0 + 1]);
      PatchReplays(states[0], states[1], orders(from));
      assert Patch(states[0], DiffVariables(states[0], states[1], orders(from))) == states[1];
      forall n | 0 <= n < |states[1..]| ensures Enumerates(orders(from + 1 + n), states[1..][n].Keys) {
        assert Enumerates(orders(from + (n + 1)), states[n + 1].Keys);
      }
      forall n | 0 <= n < |states[1..]| - 1
        ensures KeepsAllNew(states[1..][n], states[1..][n + 1])
      {
        assert KeepsAllNew(states[n + 1], states[(n + 1) + 1]);
      }
      ReplayReachesTheLast(states[1..], orders, from + 1);
      assert DiffsOf(states, orders, from)[1..] == DiffsOf(states[1..], orders, from + 1);
    }
  }

  // ---- The loops ----

  /** Walks the old variables for what was removed or changed, then the new ones for what was added. */
  method CalculateDiff(was: Snapshot, now: Snapshot, order: seq<string>, newOrder: seq<string>) returns (d: HistoryDiff)
    requires Enumerates(order, was.variables.Keys) && Enumerates(newOrder, now.variables.Keys)
    ensures d == Diff(was, now, order)
  {
    var status, currentNode := None, None;
    if was.state != now.state {
      status := Some((was.state, now.state));
    }
    if was.currentNode != now.currentNode {
      currentNode := Some((was.currentNode, now.currentNode));
    }
    var removed, changed := CollectOld(was.variables, now.variables, order);
    var added := CollectAdded(was.variables, now.variables, newOrder);
    var variables := None;
    if added != map[] || removed != [] || changed != map[] {
      variables := Some(VariableDiff(added, removed, changed));
    }
    d := HistoryDiff(variables, status, currentNode);
  }

  method CollectOld(was: Variables, now: Variables, order: seq<string>)
    returns (removed: seq<string>, changed: map<string, (Value, Value)>)
    requires Enumerates(order, was.Keys)
    ensures removed == Removed(order, now) && changed == Changed(was, now)
  {
    removed, changed := [], map[];
    var n := 0;
    assert order[0..] == order;
    hide Truncate, Removed;
    while n < |order|
      invariant 0 <= n <= |order| && removed + Removed(order[n..], now) == Removed(order, now)
      invariant forall k <- changed :: k in Changed(was, now) && changed[k] == Changed(was, now)[k]
      invariant forall m :: 0 <= m < n && order[m] in Changed(was, now) ==> order[m] in changed
    {
      var k := order[n];
      assert k in was.Keys;
      Associative(removed, [k], Removed(order[n + 1..], now));
      ListedNext(order, n, now);
      if k in now {
        if was[k] != now[k] {
          var before := TruncateValue(was[k]);
          var after := TruncateValue(now[k]);
          changed := changed[k := (before, after)];
        }
      } else {
        removed := removed + [k];
      }
      n := n + 1;
    }
    NothingListed(order, now);
    AllListed(order, was, changed.Keys, Changed(was, now).Keys);
  }

  lemma NothingListed(order: seq<string>, now: Variables)
    ensures Removed(order[|order|..], now) == []
  {}

  lemma ListedNext(order: seq<string>, n: nat, now: Variables)
    requires n < |order|
    ensures Removed(order[n..], now) ==
      if order[n] in now then Removed(order[n + 1..], now) else [order[n]] + Removed(order[n + 1..], now)
  {
    assert order[n..][1..] == order[n + 1..];
  }

  /** What holds of every listed key holds of every key. */
  lemma AllListed(order: seq<string>, vars: Variables, found: set<string>, wanted: set<string>)
    requires Enumerates(order, vars.Keys) && found <= wanted <= vars.Keys
    requires forall m :: 0 <= m < |order| && order[m] in wanted ==> order[m] in found
    ensures found == wanted
  {
    forall k | k in wanted ensures k in found {
      assert k in vars.Keys && k in order;
    }
  }

  method CollectAdded(was: Variables, now: Variables, order: seq<string>) returns (added: Variables)
    requires Enumerates(order, now.Keys)
    ensures added == Added(was, now)
  {
    hide Truncate;
    added := map[];
    var n := 0;
    while n < |order|
      invariant 0 <= n <= |order|
      invariant forall k <- added :: k in Added(was, now) && added[k] == Added(was, now)[k]
      invariant forall m :: 0 <= m < n && order[m] in Added(was, now) ==> order[m] in added
    {
      var k := order[n];
      assert k in now.Keys;
      if k !in was {
        var shown := TruncateValue(now[k]);
        added := added[k := shown];
      }
      n := n + 1;
    }
    AllListed(order, now, added.Keys, Added(was, now).Keys);
  }
}
