/** Flattening embedded sub-processes into one definition (bpmn-parser/src/parser.rs), from the parsed
    XML structures. Multi-instance markers and execution listeners are not part of this model. */
module Flatten {
  import opened Values
  import opened Text
  import opened Definition
  import opened Iso8601

  datatype XmlTask = XmlTask(
    id: string,
    name: Option<string>,
    topic: Option<string>,
    handler: Option<string>,
    script: Option<string>,
    dataScript: Option<string>,
    assignee: Option<string>,
    calledElement: Option<string>)

  datatype XmlGateway = XmlGateway(id: string, default: Option<string>, activation: Option<string>)

  datatype XmlTimer = XmlTimer(duration: Option<string>, date: Option<string>, cycle: Option<string>)

  datatype XmlEvent =
    | TimerXml(timer: XmlTimer)
    | MessageXml(messageRef: Option<string>)
    | ErrorXml(errorRef: Option<string>)
    | EscalationXml(escalationRef: Option<string>)
    | CompensationXml
    | NoEvent

  datatype XmlBoundary = XmlBoundary(id: string, attachedTo: string, cancelActivity: Option<bool>, event: XmlEvent)

  datatype XmlFlow = XmlFlow(id: string, source: string, target: string, condition: Option<string>)

  datatype XmlSubProcess = XmlSubProcess(
    id: string,
    startEvents: seq<string>,
    endEvents: seq<string>,
    serviceTasks: seq<XmlTask>,
    scriptTasks: seq<XmlTask>,
    userTasks: seq<XmlTask>,
    otherTasks: seq<XmlTask>,
    callActivities: seq<XmlTask>,
    exclusiveGateways: seq<XmlGateway>,
    parallelGateways: seq<XmlGateway>,
    complexGateways: seq<XmlGateway>,
    boundaryEvents: seq<XmlBoundary>,
    flows: seq<XmlFlow>,
    subProcesses: seq<XmlSubProcess>)

  /** The date and cron libraries, and the names messages, errors and escalations resolve to. */
  datatype Lookups = Lookups(
    date: string -> Option<Time>,
    cron: string -> bool,
    messages: map<string, string>,
    errors: map<string, string>,
    escalations: map<string, string>)

  datatype Builder = Builder(nodes: map<string, BpmnElement>, flows: map<string, seq<SequenceFlow>>) {
    function Node(id: string, el: BpmnElement): Builder {
      this.(nodes := nodes[id := el])
    }

    function Flow(f: XmlFlow): Builder {
      this.(flows := flows[f.source := FlowsAt(f.source) + [Edge(f)]])
    }

    function FlowsAt(source: string): seq<SequenceFlow> {
      if source in flows then flows[source] else []
    }
  }

  function Edge(f: XmlFlow): SequenceFlow {
    SequenceFlow(f.target, match f.condition case Some(c) => Some(Trim(c)) case None => None)
  }

  function OrElse<T>(o: Option<T>, other: T): T {
    match o case Some(v) => v case None => other
  }

  // ---- Timers ----

  /** `parse_timer_definition`: duration before date before cycle; nothing means no delay. */
  function ParseTimer(t: XmlTimer, lookups: Lookups): Option<TimerDefinition> {
    if t.duration.Some? then
      match ParseDuration(t.duration.value) case Some(secs) => Some(Duration(secs)) case None => None
    else if t.date.Some? then
      match lookups.date(Trim(t.date.value)) case Some(at) => Some(AbsoluteDate(at)) case None => None
    else if t.cycle.Some? then
      var s := Trim(t.cycle.value);
      if s != [] && s[0] == 'R' then ParseRepeating(s)
      else if lookups.cron(s) then Some(CronCycle(s, None)) else None
    else Some(Duration(0))
  }

  // ---- What each XML element becomes ----

  type Entry = (string, BpmnElement)

  function StartOf(sp: XmlSubProcess): string {
    if sp.startEvents != [] then sp.startEvents[0] else sp.id + "_start"
  }

  function StartNode(id: string): Entry {
    (id, ServiceTask("noop"))
  }

  function EndNode(id: string, scope: string): Entry {
    (id, SubProcessEndEvent(scope))
  }

  function ServiceNode(t: XmlTask): Entry {
    (t.id, ServiceTask(OrElse(t.topic, OrElse(t.handler, t.id))))
  }

  function ScriptNode(t: XmlTask): Entry {
    (t.id, ScriptTask(OrElse(t.script, OrElse(t.dataScript, ""))))
  }

  function UserNode(t: XmlTask): Entry {
    (t.id, UserTask(OrElse(t.assignee, "unassigned")))
  }

  /** Generic, receive, manual and business rule tasks. */
  function OtherNode(t: XmlTask): Entry {
    (t.id, ServiceTask(OrElse(t.name, t.id)))
  }

  function CallNode(t: XmlTask): Entry {
    (t.id, CallActivity(OrElse(t.calledElement, t.id)))
  }

  /** A default stays the id of a sequence flow; it is not resolved to the flow's target. */
  function ExclusiveNode(g: XmlGateway): Entry {
    (g.id, ExclusiveGateway(g.default))
  }

  function ParallelNode(g: XmlGateway): Entry {
    (g.id, ParallelGateway)
  }

  function ComplexNode(g: XmlGateway): Entry {
    (g.id, ComplexGateway(match g.activation case Some(c) => Some(Trim(c)) case None => None, g.default))
  }

  function Resolved(ref: Option<string>, table: map<string, string>): Option<string> {
    if ref.Some? && ref.value in table then Some(table[ref.value]) else None
  }

  /** A boundary event without a usable event definition yields no node. */
  function BoundaryNode(b: XmlBoundary, lookups: Lookups): Option<Entry> {
    var cancel := OrElse(b.cancelActivity, true);
    match b.event
    case TimerXml(t) =>
      (match ParseTimer(t, lookups)
       case Some(timer) => Some((b.id, BoundaryTimerEvent(b.attachedTo, timer, cancel)))
       case None => None)
    case MessageXml(ref) =>
      Some((b.id, BoundaryMessageEvent(b.attachedTo, OrElse(Resolved(ref, lookups.messages), OrElse(ref, "unknown")),
        cancel)))
    case ErrorXml(ref) => Some((b.id, BoundaryErrorEvent(b.attachedTo, Resolved(ref, lookups.errors))))
    case EscalationXml(ref) =>
      Some((b.id, BoundaryEscalationEvent(b.attachedTo, Resolved(ref, lookups.escalations), cancel)))
    case CompensationXml => Some((b.id, BoundaryCompensationEvent(b.attachedTo)))
    case NoEvent => None
  }

  function Map<T>(s: seq<T>, f: T -> Entry): (r: seq<Entry>)
    ensures |r| == |s| && forall k :: 0 <= k < |s| ==> r[k] == f(s[k])
  {
    if s == [] then [] else [f(s[0])] + Map(s[1..], f)
  }

  function BoundaryNodes(s: seq<XmlBoundary>, lookups: Lookups): seq<Entry> {
    if s == [] then []
    else (match BoundaryNode(s[0], lookups) case Some(e) => [e] case None => []) + BoundaryNodes(s[1..], lookups)
  }

  /** The nodes of the sub-process itself, in the order they are added. */
  function OwnNodes(sp: XmlSubProcess, lookups: Lookups): seq<Entry> {
    [(sp.id, EmbeddedSubProcess(StartOf(sp)))]
    + Map(sp.startEvents, StartNode) + Map(sp.endEvents, id => EndNode(id, sp.id))
    + Map(sp.serviceTasks, ServiceNode) + Map(sp.scriptTasks, ScriptNode) + Map(sp.userTasks, UserNode)
    + Map(sp.otherTasks, OtherNode) + Map(sp.callActivities, CallNode)
    + Map(sp.exclusiveGateways, ExclusiveNode) + Map(sp.parallelGateways, ParallelNode)
      + Map(sp.complexGateways, ComplexNode)
    + BoundaryNodes(sp.boundaryEvents, lookups)
  }

  /** All nodes, at every depth. */
  function AllNodes(sp: XmlSubProcess, lookups: Lookups): seq<Entry>
    decreases sp
  {
    OwnNodes(sp, lookups) + NodesOfEach(sp.subProcesses, lookups)
  }

  function NodesOfEach(subs: seq<XmlSubProcess>, lookups: Lookups): seq<Entry>
    decreases subs
  {
    if subs == [] then [] else AllNodes(subs[0], lookups) + NodesOfEach(subs[1..], lookups)
  }

  /** All sequence flows, at every depth, in source order. */
  function AllFlows(sp: XmlSubProcess): seq<XmlFlow>
    decreases sp
  {
    sp.flows + FlowsOfEach(sp.subProcesses)
  }

  function FlowsOfEach(subs: seq<XmlSubProcess>): seq<XmlFlow>
    decreases subs
  {
    if subs == [] then [] else AllFlows(subs[0]) + FlowsOfEach(subs[1..])
  }

  // ---- Adding lists of nodes and flows ----

  function AddNodes(b: Builder, entries: seq<Entry>): Builder
    decreases |entries|
  {
    if entries == [] then b else AddNodes(b.Node(entries[0].0, entries[0].1), entries[1..])
  }

  function AddFlows(b: Builder, flows: seq<XmlFlow>): Builder
    decreases |flows|
  {
    if flows == [] then b else AddFlows(b.Flow(flows[0]), flows[1..])
  }

  lemma {:induction false} AddNodesAppend(b: Builder, x: seq<Entry>, y: seq<Entry>)
    ensures AddNodes(b, x + y) == AddNodes(AddNodes(b, x), y)
    decreases |x|
  {
    if x == [] {
      assert x + y == y;
    } else {
      assert (x + y)[1..] == x[1..] + y;
      AddNodesAppend(b.Node(x[0].0, x[0].1), x[1..], y);
    }
  }

  lemma {:induction false} AddFlowsAppend(b: Builder, x: seq<XmlFlow>, y: seq<XmlFlow>)
    ensures AddFlows(b, x + y) == AddFlows(AddFlows(b, x), y)
    decreases |x|
  {
    if x == [] {
      assert x + y == y;
    } else {
      assert (x + y)[1..] == x[1..] + y;
      AddFlowsAppend(b.Flow(x[0]), x[1..], y);
    }
  }

  /** Nodes and flows do not get in each other's way. */
  lemma {:induction false} NodesThenFlows(b: Builder, entries: seq<Entry>, flows: seq<XmlFlow>)
    ensures AddNodes(b, entries) == b.(nodes := AddNodes(b, entries).nodes)
    ensures AddFlows(b, flows) == b.(flows := AddFlows(b, flows).flows)
    decreases |entries| + |flows|
  {
    if entries != [] {
      NodesThenFlows(b.Node(entries[0].0, entries[0].1), entries[1..], flows);
    }
    if flows != [] {
      NodesThenFlows(b.Flow(flows[0]), entries, flows[1..]);
    }
  }

  lemma {:induction false} FlowsCommute(b: Builder, entries: seq<Entry>, flows: seq<XmlFlow>)
    ensures AddNodes(AddFlows(b, flows), entries) == AddFlows(AddNodes(b, entries), flows)
    decreases |flows|
  {
    if flows != [] {
      FlowsCommute(b.Flow(flows[0]), entries, flows[1..]);
      FlowCommutes(b, entries, flows[0]);
    }
  }

  lemma {:induction false} FlowCommutes(b: Builder, entries: seq<Entry>, f: XmlFlow)
    ensures AddNodes(b.Flow(f), entries) == AddNodes(b, entries).Flow(f)
    decreases |entries|
  {
    if entries != [] {
      var e := entries[0];
      assert b.Flow(f).Node(e.0, e.1) == b.Node(e.0, e.1).Flow(f);
      FlowCommutes(b.Node(e.0, e.1), entries[1..], f);
    }
  }

  // ---- Flattening ----

  /** What flattening adds: all nodes and all flows. */
  function Flattened(b: Builder, sp: XmlSubProcess, lookups: Lookups): Builder {
    AddFlows(AddNodes(b, AllNodes(sp, lookups)), AllFlows(sp))
  }

  function FlattenedEach(b: Builder, subs: seq<XmlSubProcess>, lookups: Lookups): Builder {
    AddFlows(AddNodes(b, NodesOfEach(subs, lookups)), FlowsOfEach(subs))
  }

  /** Own nodes, own flows, then the nested sub-processes: the order in which the source works. */
  lemma FlattenedInSteps(b: Builder, sp: XmlSubProcess, lookups: Lookups)
    ensures Flattened(b, sp, lookups)
      == FlattenedEach(AddFlows(AddNodes(b, OwnNodes(sp, lookups)), sp.flows), sp.subProcesses, lookups)
  {
    var own, subs := OwnNodes(sp, lookups), NodesOfEach(sp.subProcesses, lookups);
    AddNodesAppend(b, own, subs);
    AddFlowsAppend(AddNodes(AddNodes(b, own), subs), sp.flows, FlowsOfEach(sp.subProcesses));
    FlowsCommute(AddNodes(b, own), subs, sp.flows);
  }

  lemma FlattenedEachInSteps(b: Builder, subs: seq<XmlSubProcess>, lookups: Lookups)
    requires subs != []
    ensures FlattenedEach(b, subs, lookups) == FlattenedEach(Flattened(b, subs[0], lookups), subs[1..], lookups)
  {
    var first, rest := AllNodes(subs[0], lookups), NodesOfEach(subs[1..], lookups);
    AddNodesAppend(b, first, rest);
    AddFlowsAppend(AddNodes(AddNodes(b, first), rest), AllFlows(subs[0]), FlowsOfEach(subs[1..]));
    FlowsCommute(AddNodes(b, first), rest, AllFlows(subs[0]));
  }

  /** Adds one node after the other. */
  method AddEach<T>(b: Builder, s: seq<T>, f: T -> Entry) returns (r: Builder)
    ensures r == AddNodes(b, Map(s, f))
  {
    r := b;
    var k := 0;
    assert s[0..] == s;
    while k < |s|
      invariant 0 <= k <= |s| && AddNodes(r, Map(s[k..], f)) == AddNodes(b, Map(s, f))
    {
      assert s[k..][1..] == s[k + 1..];
      assert Map(s[k..], f)[1..] == Map(s[k + 1..], f);
      r := r.Node(f(s[k]).0, f(s[k]).1);
      k := k + 1;
    }
  }

  method AddBoundaries(b: Builder, s: seq<XmlBoundary>, lookups: Lookups) returns (r: Builder)
    ensures r == AddNodes(b, BoundaryNodes(s, lookups))
  {
    hide BoundaryNode;
    r := b;
    var k := 0;
    assert s[0..] == s;
    while k < |s|
      invariant 0 <= k <= |s| && AddNodes(r, BoundaryNodes(s[k..], lookups)) == AddNodes(b, BoundaryNodes(s, lookups))
    {
      assert s[k..][1..] == s[k + 1..];
      var node := BoundaryNode(s[k], lookups);
      if node.Some? {
        assert BoundaryNodes(s[k..], lookups)[1..] == BoundaryNodes(s[k + 1..], lookups);
        r := r.Node(node.value.0, node.value.1);
      } else {
        assert BoundaryNodes(s[k..], lookups) == BoundaryNodes(s[k + 1..], lookups);
      }
      k := k + 1;
    }
  }

  /** Adds all nodes of the sub-process itself, kind by kind. */
  method AddOwnNodes(b: Builder, sp: XmlSubProcess, lookups: Lookups) returns (r: Builder)
    ensures r == AddNodes(b, OwnNodes(sp, lookups))
  {
    hide AddNodes, Map, BoundaryNodes;
    var first := [(sp.id, EmbeddedSubProcess(StartOf(sp)))];
    r := b.Node(sp.id, EmbeddedSubProcess(StartOf(sp)));
    assert r == AddNodes(b, first) by { OneNode(b, first[0]); }
    ghost var all := first;
    r := AddEach(r, sp.startEvents, StartNode);
    AddNodesAppend(b, all, Map(sp.startEvents, StartNode));
    all := all + Map(sp.startEvents, StartNode);
    r := AddEach(r, sp.endEvents, id => EndNode(id, sp.id));
    AddNodesAppend(b, all, Map(sp.endEvents, id => EndNode(id, sp.id)));
    all := all + Map(sp.endEvents, id => EndNode(id, sp.id));
    r := AddEach(r, sp.serviceTasks, ServiceNode);
    AddNodesAppend(b, all, Map(sp.serviceTasks, ServiceNode));
    all := all + Map(sp.serviceTasks, ServiceNode);
    r := AddEach(r, sp.scriptTasks, ScriptNode);
    AddNodesAppend(b, all, Map(sp.scriptTasks, ScriptNode));
    all := all + Map(sp.scriptTasks, ScriptNode);
    r := AddEach(r, sp.userTasks, UserNode);
    AddNodesAppend(b, all, Map(sp.userTasks, UserNode));
    all := all + Map(sp.userTasks, UserNode);
    r := AddEach(r, sp.otherTasks, OtherNode);
    AddNodesAppend(b, all, Map(sp.otherTasks, OtherNode));
    all := all + Map(sp.otherTasks, OtherNode);
    r := AddEach(r, sp.callActivities, CallNode);
    AddNodesAppend(b, all, Map(sp.callActivities, CallNode));
    all := all + Map(sp.callActivities, CallNode);
    r := AddEach(r, sp.exclusiveGateways, ExclusiveNode);
    AddNodesAppend(b, all, Map(sp.exclusiveGateways, ExclusiveNode));
    all := all + Map(sp.exclusiveGateways, ExclusiveNode);
    r := AddEach(r, sp.parallelGateways, ParallelNode);
    AddNodesAppend(b, all, Map(sp.parallelGateways, ParallelNode));
    all := all + Map(sp.parallelGateways, ParallelNode);
    r := AddEach(r, sp.complexGateways, ComplexNode);
    AddNodesAppend(b, all, Map(sp.complexGateways, ComplexNode));
    all := all + Map(sp.complexGateways, ComplexNode);
    r := AddBoundaries(r, sp.boundaryEvents, lookups);
    AddNodesAppend(b, all, BoundaryNodes(sp.boundaryEvents, lookups));
    all := all + BoundaryNodes(sp.boundaryEvents, lookups);
    assert all == OwnNodes(sp, lookups);
  }

  lemma OneNode(b: Builder, e: Entry)
    ensures AddNodes(b, [e]) == b.Node(e.0, e.1)
  {
    assert [e][1..] == [];
  }

  method AddSequenceFlows(b: Builder, flows: seq<XmlFlow>) returns (r: Builder)
    ensures r == AddFlows(b, flows)
  {
    r := b;
    var k := 0;
    assert flows[0..] == flows;
    while k < |flows|
      invariant 0 <= k <= |flows| && AddFlows(r, flows[k..]) == AddFlows(b, flows)
    {
      assert flows[k..][1..] == flows[k + 1..];
      r := r.Flow(flows[k]);
      k := k + 1;
    }
  }

  /** `flatten_subprocess`. */
  method FlattenSubprocess(sp: XmlSubProcess, b: Builder, lookups: Lookups) returns (r: Builder)
    ensures r == Flattened(b, sp, lookups)
    decreases sp
  {
    r := AddOwnNodes(b, sp, lookups);
    r := AddSequenceFlows(r, sp.flows);
    FlattenedInSteps(b, sp, lookups);
    var k := 0;
    assert sp.subProcesses[0..] == sp.subProcesses;
    hide Flattened, AddNodes, AddFlows, OwnNodes;
    while k < |sp.subProcesses|
      invariant 0 <= k <= |sp.subProcesses|
      invariant FlattenedEach(r, sp.subProcesses[k..], lookups) == Flattened(b, sp, lookups)
    {
      assert sp.subProcesses[k..][1..] == sp.subProcesses[k + 1..];
      FlattenedEachInSteps(r, sp.subProcesses[k..], lookups);
      r := FlattenSubprocess(sp.subProcesses[k], r, lookups);
      k := k + 1;
    }
    assert FlattenedEach(r, [], lookups) == r by { NothingToFlatten(r, lookups); }
  }

  lemma NothingToFlatten(b: Builder, lookups: Lookups)
    ensures FlattenedEach(b, [], lookups) == b
  {}

  // ---- What flattening keeps ----

  /** The flows of the list that leave `source`, in order. */
  function Leaving(flows: seq<XmlFlow>, source: string): seq<SequenceFlow> {
    if flows == [] then []
    else (if flows[0].source == source then [Edge(flows[0])] else []) + Leaving(flows[1..], source)
  }

  lemma {:induction false} AddFlowsAppendsEach(b: Builder, flows: seq<XmlFlow>, source: string)
    ensures AddFlows(b, flows).FlowsAt(source) == b.FlowsAt(source) + Leaving(flows, source)
    decreases |flows|
  {
    if flows != [] {
      AddFlowsAppendsEach(b.Flow(flows[0]), flows[1..], source);
    }
  }

  /** The flows that leave `source`, in order. */
  function FlowsFrom(flows: seq<XmlFlow>, source: string): seq<XmlFlow> {
    if flows == [] then []
    else (if flows[0].source == source then [flows[0]] else []) + FlowsFrom(flows[1..], source)
  }

  /** The flow of the definition leads where the XML flow does, under the same condition but for the
      white space around it. */
  ghost predicate Carries(f: XmlFlow, sf: SequenceFlow) {
    && sf.target == f.target && (sf.condition.Some? <==> f.condition.Some?)
    && (f.condition.Some? ==> sf.condition.value == Trim(f.condition.value))
  }

  lemma {:induction false} LeavingCarries(flows: seq<XmlFlow>, source: string)
    ensures var from, leaving := FlowsFrom(flows, source), Leaving(flows, source);
      |leaving| == |from| && forall k :: 0 <= k < |from| ==> from[k].source == source && Carries(from[k], leaving[k])
    decreases |flows|
  {
    if flows != [] {
      LeavingCarries(flows[1..], source);
    }
  }

  lemma FlowsAppended(b: Builder, sp: XmlSubProcess, lookups: Lookups, source: string)
    ensures Flattened(b, sp, lookups).FlowsAt(source) == b.FlowsAt(source) + Leaving(AllFlows(sp), source)
  {
    var b1 := AddNodes(b, AllNodes(sp, lookups));
    NodesThenFlows(b, AllNodes(sp, lookups), []);
    AddFlowsAppendsEach(b1, AllFlows(sp), source);
    assert b1.FlowsAt(source) == b.FlowsAt(source);
  }

  /** Every sequence flow at every level is added once, at its source, after the flows that were there and
      in source order, with its target and its condition. */
  lemma FlowsKeptInOrder(b: Builder, sp: XmlSubProcess, lookups: Lookups, source: string)
    ensures var before, after := b.FlowsAt(source), Flattened(b, sp, lookups).FlowsAt(source);
      var from := FlowsFrom(AllFlows(sp), source);
      && |after| == |before| + |from| && before <= after
      && forall k :: 0 <= k < |from| ==> from[k].source == source && Carries(from[k], after[|before| + k])
  {
    FlowsAppended(b, sp, lookups, source);
    LeavingCarries(AllFlows(sp), source);
    hide Flattened, Leaving, FlowsFrom, AllFlows, Carries;
    var before, leaving := b.FlowsAt(source), Leaving(AllFlows(sp), source);
    assert forall k :: 0 <= k < |leaving| ==> (before + leaving)[|before| + k] == leaving[k];
  }

  /** Ids are distinct: in the sub-process, and from the nodes already there. */
  ghost predicate DistinctIds(b: Builder, entries: seq<Entry>) {
    && (forall j, k :: 0 <= j < k < |entries| ==> entries[j].0 != entries[k].0)
    && (forall k :: 0 <= k < |entries| ==> entries[k].0 !in b.nodes)
  }

  lemma {:induction false} AddNodesKeepsEach(b: Builder, entries: seq<Entry>)
    requires DistinctIds(b, entries)
    ensures var r := AddNodes(b, entries);
      && (forall k :: 0 <= k < |entries| ==> entries[k].0 in r.nodes && r.nodes[entries[k].0] == entries[k].1)
      && (forall id <- b.nodes :: id in r.nodes && r.nodes[id] == b.nodes[id])
      && (forall id <- r.nodes :: id in b.nodes || exists k :: 0 <= k < |entries| && entries[k].0 == id)
    decreases |entries|
  {
    if entries != [] {
      var e, b1 := entries[0], b.Node(entries[0].0, entries[0].1);
      assert forall k :: 0 <= k < |entries[1..]| ==> entries[1..][k] == entries[k + 1];
      AddNodesKeepsEach(b1, entries[1..]);
      var r := AddNodes(b, entries);
      forall k | 0 <= k < |entries| ensures entries[k].0 in r.nodes && r.nodes[entries[k].0] == entries[k].1 {
        if k > 0 { assert entries[1..][k - 1] == entries[k]; }
      }
      forall id | id in r.nodes && id !in b.nodes ensures exists k :: 0 <= k < |entries| && entries[k].0 == id {
        if id != e.0 {
          var k :| 0 <= k < |entries[1..]| && entries[1..][k].0 == id;
          assert entries[k + 1].0 == id;
        }
      }
    }
  }

  /** `x` is `sp` or nested in it, at any depth. */
  ghost predicate Inside(x: XmlSubProcess, sp: XmlSubProcess)
    decreases sp
  {
    x == sp || InsideAny(x, sp.subProcesses)
  }

  ghost predicate InsideAny(x: XmlSubProcess, subs: seq<XmlSubProcess>)
    decreases subs
  {
    subs != [] && (Inside(x, subs[0]) || InsideAny(x, subs[1..]))
  }

  predicate StandsAt<T(==)>(a: seq<T>, b: seq<T>, at: nat) {
    at + |a| <= |b| && b[at..at + |a|] == a
  }

  ghost predicate PartOf<T>(a: seq<T>, b: seq<T>) {
    exists at: nat :: StandsAt(a, b, at)
  }

  lemma PartWithin<T>(a: seq<T>, left: seq<T>, mid: seq<T>, right: seq<T>)
    requires PartOf(a, mid)
    ensures PartOf(a, left + mid + right)
  {
    var at: nat :| StandsAt(a, mid, at);
    var all := left + mid + right;
    assert all[|left| + at..|left| + at + |a|] == mid[at..at + |a|];
    assert StandsAt(a, all, |left| + at);
  }

  lemma {:induction false} InsideParts(x: XmlSubProcess, sp: XmlSubProcess, lookups: Lookups)
    requires Inside(x, sp)
    ensures PartOf(OwnNodes(x, lookups), AllNodes(sp, lookups)) && PartOf(x.flows, AllFlows(sp))
    decreases sp
  {
    if x == sp {
      var own, subs := OwnNodes(sp, lookups), NodesOfEach(sp.subProcesses, lookups);
      assert StandsAt(own, own + subs, 0);
      assert StandsAt(sp.flows, sp.flows + FlowsOfEach(sp.subProcesses), 0);
    } else {
      InsideAnyParts(x, sp.subProcesses, lookups);
      PartWithin(OwnNodes(x, lookups), OwnNodes(sp, lookups), NodesOfEach(sp.subProcesses, lookups), []);
      PartWithin(x.flows, sp.flows, FlowsOfEach(sp.subProcesses), []);
      assert AllNodes(sp, lookups) + [] == AllNodes(sp, lookups) && AllFlows(sp) + [] == AllFlows(sp);
    }
  }

  lemma {:induction false} InsideAnyParts(x: XmlSubProcess, subs: seq<XmlSubProcess>, lookups: Lookups)
    requires InsideAny(x, subs)
    ensures PartOf(OwnNodes(x, lookups), NodesOfEach(subs, lookups)) && PartOf(x.flows, FlowsOfEach(subs))
    decreases subs
  {
    var first, rest := AllNodes(subs[0], lookups), NodesOfEach(subs[1..], lookups);
    if Inside(x, subs[0]) {
      InsideParts(x, subs[0], lookups);
      PartWithin(OwnNodes(x, lookups), [], first, rest);
      PartWithin(x.flows, [], AllFlows(subs[0]), FlowsOfEach(subs[1..]));
      assert [] + first + rest == first + rest && [] + AllFlows(subs[0]) == AllFlows(subs[0]);
    } else {
      InsideAnyParts(x, subs[1..], lookups);
      PartWithin(OwnNodes(x, lookups), first, rest, []);
      PartWithin(x.flows, AllFlows(subs[0]), FlowsOfEach(subs[1..]), []);
      assert first + rest + [] == first + rest;
      assert AllFlows(subs[0]) + FlowsOfEach(subs[1..]) + [] == AllFlows(subs[0]) + FlowsOfEach(subs[1..]);
    }
  }

  /** The flattened definition has this node. */
  predicate Has(b: Builder, e: Entry) {
    e.0 in b.nodes && b.nodes[e.0] == e.1
  }

  lemma MapHas<T>(s: seq<T>, f: T -> Entry)
    ensures forall x <- s :: f(x) in Map(s, f)
  {
    forall k | 0 <= k < |s| ensures f(s[k]) in Map(s, f) {
      assert Map(s, f)[k] == f(s[k]);
    }
  }

  /** What lists of nodes hold, put together. */
  lemma OwnNodesHold(sp: XmlSubProcess, lookups: Lookups, e: Entry)
    requires || e in Map(sp.startEvents, StartNode) || e in Map(sp.endEvents, id => EndNode(id, sp.id))
             || e in Map(sp.exclusiveGateways, ExclusiveNode) || e in Map(sp.complexGateways, ComplexNode)
             || e in Map(sp.parallelGateways, ParallelNode) || e in Map(sp.serviceTasks, ServiceNode)
             || e in Map(sp.scriptTasks, ScriptNode) || e in Map(sp.userTasks, UserNode)
             || e in Map(sp.otherTasks, OtherNode) || e in Map(sp.callActivities, CallNode)
             || e in BoundaryNodes(sp.boundaryEvents, lookups)
    ensures e in OwnNodes(sp, lookups)
  {
    hide Map, BoundaryNodes;
  }

  lemma OwnNodesAre(sp: XmlSubProcess, lookups: Lookups)
    ensures OwnNodes(sp, lookups) != [] && OwnNodes(sp, lookups)[0] == (sp.id, EmbeddedSubProcess(StartOf(sp)))
    ensures forall id <- sp.startEvents :: StartNode(id) in OwnNodes(sp, lookups)
    ensures forall id <- sp.endEvents :: EndNode(id, sp.id) in OwnNodes(sp, lookups)
    ensures forall g <- sp.exclusiveGateways :: ExclusiveNode(g) in OwnNodes(sp, lookups)
    ensures forall g <- sp.complexGateways :: ComplexNode(g) in OwnNodes(sp, lookups)
    ensures forall g <- sp.parallelGateways :: ParallelNode(g) in OwnNodes(sp, lookups)
  {
    FirstOwnNode(sp, lookups);
    MapHas(sp.startEvents, StartNode);
    var ends := id => EndNode(id, sp.id);
    MapHas(sp.endEvents, ends);
    MapHas(sp.exclusiveGateways, ExclusiveNode);
    MapHas(sp.complexGateways, ComplexNode);
    MapHas(sp.parallelGateways, ParallelNode);
    hide OwnNodes, Map;
    forall id | id in sp.startEvents ensures StartNode(id) in OwnNodes(sp, lookups) {
      OwnNodesHold(sp, lookups, StartNode(id));
    }
    forall id | id in sp.endEvents ensures EndNode(id, sp.id) in OwnNodes(sp, lookups) {
      assert ends(id) == EndNode(id, sp.id);
      OwnNodesHold(sp, lookups, EndNode(id, sp.id));
    }
    forall g | g in sp.exclusiveGateways ensures ExclusiveNode(g) in OwnNodes(sp, lookups) {
      OwnNodesHold(sp, lookups, ExclusiveNode(g));
    }
    forall g | g in sp.complexGateways ensures ComplexNode(g) in OwnNodes(sp, lookups) {
      OwnNodesHold(sp, lookups, ComplexNode(g));
    }
    forall g | g in sp.parallelGateways ensures ParallelNode(g) in OwnNodes(sp, lookups) {
      OwnNodesHold(sp, lookups, ParallelNode(g));
    }
  }

  lemma FirstOwnNode(sp: XmlSubProcess, lookups: Lookups)
    ensures OwnNodes(sp, lookups) != [] && OwnNodes(sp, lookups)[0] == (sp.id, EmbeddedSubProcess(StartOf(sp)))
  {
    hide Map, BoundaryNodes, StartOf;
  }

  lemma OwnNodesKept(b: Builder, sp: XmlSubProcess, lookups: Lookups, x: XmlSubProcess)
    requires DistinctIds(b, AllNodes(sp, lookups)) && Inside(x, sp)
    ensures forall e <- OwnNodes(x, lookups) :: Has(AddNodes(b, AllNodes(sp, lookups)), e)
  {
    var all, own := AllNodes(sp, lookups), OwnNodes(x, lookups);
    InsideParts(x, sp, lookups);
    AddNodesKeepsEach(b, all);
    hide AllNodes, OwnNodes, AddNodes;
    var at: nat :| StandsAt(own, all, at);
    forall k | 0 <= k < |own| ensures Has(AddNodes(b, all), own[k]) {
      assert own[k] == all[at..at + |own|][k] == all[at + k];
    }
  }

  /** Nodes of a nested sub-process are nodes of the flattened definition. */
  lemma OwnNodesFlattened(b: Builder, sp: XmlSubProcess, lookups: Lookups, x: XmlSubProcess)
    requires DistinctIds(b, AllNodes(sp, lookups)) && Inside(x, sp)
    ensures forall e <- OwnNodes(x, lookups) :: Has(Flattened(b, sp, lookups), e)
  {
    OwnNodesKept(b, sp, lookups, x);
    NodesThenFlows(AddNodes(b, AllNodes(sp, lookups)), [], AllFlows(sp));
    hide AllNodes, OwnNodes, AddNodes, AddFlows, AllFlows, DistinctIds, Inside;
  }

  /** At every depth: a sub-process is a node, which leads to its start; its end events name it; and a
      gateway's default stays a flow id. */
  lemma StructureKept(b: Builder, sp: XmlSubProcess, lookups: Lookups, x: XmlSubProcess)
    requires DistinctIds(b, AllNodes(sp, lookups)) && Inside(x, sp)
    ensures var r := Flattened(b, sp, lookups);
      && Has(r, (x.id, EmbeddedSubProcess(if x.startEvents == [] then x.id + "_start" else x.startEvents[0])))
      && (forall id <- x.startEvents :: Has(r, (id, ServiceTask("noop"))))
      && (forall id <- x.endEvents :: Has(r, (id, SubProcessEndEvent(x.id))))
      && (forall g <- x.exclusiveGateways :: Has(r, (g.id, ExclusiveGateway(g.default))))
      && (forall g <- x.parallelGateways :: Has(r, (g.id, ParallelGateway)))
      && (forall g <- x.complexGateways ::
            Has(r, (g.id, ComplexGateway(if g.activation.Some? then Some(Trim(g.activation.value))
              else None, g.default))))
      && PartOf(x.flows, AllFlows(sp))
  {
    InsideParts(x, sp, lookups);
    OwnNodesFlattened(b, sp, lookups, x);
    hide AllNodes, OwnNodes, Flattened, AllFlows, PartOf, DistinctIds, Inside, Has;
    EventsAre(Flattened(b, sp, lookups), x, lookups);
    GatewaysAre(Flattened(b, sp, lookups), x, lookups);
  }

  lemma EventsAre(r: Builder, x: XmlSubProcess, lookups: Lookups)
    requires forall e <- OwnNodes(x, lookups) :: Has(r, e)
    ensures Has(r, (x.id, EmbeddedSubProcess(if x.startEvents == [] then x.id + "_start" else x.startEvents[0])))
    ensures forall id <- x.startEvents :: Has(r, (id, ServiceTask("noop")))
    ensures forall id <- x.endEvents :: Has(r, (id, SubProcessEndEvent(x.id)))
  {
    OwnNodesAre(x, lookups);
    hide OwnNodes, Has;
    assert OwnNodes(x, lookups)[0] in OwnNodes(x, lookups);
    forall id | id in x.startEvents ensures Has(r, (id, ServiceTask("noop"))) {
      assert StartNode(id) in OwnNodes(x, lookups);
    }
    forall id | id in x.endEvents ensures Has(r, (id, SubProcessEndEvent(x.id))) {
      assert EndNode(id, x.id) in OwnNodes(x, lookups);
    }
  }

  lemma GatewaysAre(r: Builder, x: XmlSubProcess, lookups: Lookups)
    requires forall e <- OwnNodes(x, lookups) :: Has(r, e)
    ensures forall g <- x.exclusiveGateways :: Has(r, (g.id, ExclusiveGateway(g.default)))
    ensures forall g <- x.parallelGateways :: Has(r, (g.id, ParallelGateway))
    ensures forall g <- x.complexGateways ::
      Has(r, (g.id, ComplexGateway(if g.activation.Some? then Some(Trim(g.activation.value)) else None, g.default)))
  {
    OwnNodesAre(x, lookups);
    hide OwnNodes, Has, Trim;
    forall g | g in x.exclusiveGateways ensures Has(r, (g.id, ExclusiveGateway(g.default))) {
      assert ExclusiveNode(g) in OwnNodes(x, lookups);
    }
    forall g | g in x.parallelGateways ensures Has(r, (g.id, ParallelGateway)) {
      assert ParallelNode(g) in OwnNodes(x, lookups);
    }
    forall g | g in x.complexGateways
      ensures Has(r, (g.id, ComplexGateway(if g.activation.Some? then Some(Trim(g.activation.value))
        else None, g.default)))
    {
      assert ComplexNode(g) in OwnNodes(x, lookups);
    }
  }

  lemma OwnTasksAre(sp: XmlSubProcess, lookups: Lookups)
    ensures forall t <- sp.serviceTasks :: ServiceNode(t) in OwnNodes(sp, lookups)
    ensures forall t <- sp.scriptTasks :: ScriptNode(t) in OwnNodes(sp, lookups)
    ensures forall t <- sp.userTasks :: UserNode(t) in OwnNodes(sp, lookups)
    ensures forall t <- sp.otherTasks :: OtherNode(t) in OwnNodes(sp, lookups)
    ensures forall t <- sp.callActivities :: CallNode(t) in OwnNodes(sp, lookups)
  {
    MapHas(sp.serviceTasks, ServiceNode);
    MapHas(sp.scriptTasks, ScriptNode);
    MapHas(sp.userTasks, UserNode);
    MapHas(sp.otherTasks, OtherNode);
    MapHas(sp.callActivities, CallNode);
    hide OwnNodes, Map;
    forall t | t in sp.serviceTasks ensures ServiceNode(t) in OwnNodes(sp, lookups) {
      OwnNodesHold(sp, lookups, ServiceNode(t));
    }
    forall t | t in sp.scriptTasks ensures ScriptNode(t) in OwnNodes(sp, lookups) {
      OwnNodesHold(sp, lookups, ScriptNode(t));
    }
    forall t | t in sp.userTasks ensures UserNode(t) in OwnNodes(sp, lookups) {
      OwnNodesHold(sp, lookups, UserNode(t));
    }
    forall t | t in sp.otherTasks ensures OtherNode(t) in OwnNodes(sp, lookups) {
      OwnNodesHold(sp, lookups, OtherNode(t));
    }
    forall t | t in sp.callActivities ensures CallNode(t) in OwnNodes(sp, lookups) {
      OwnNodesHold(sp, lookups, CallNode(t));
    }
  }

  /** The first text that is given. */
  function FirstGiven(first: Option<string>, second: Option<string>, otherwise: string): string {
    if first.Some? then first.value else if second.Some? then second.value else otherwise
  }

  /** At every depth, every task is a node: a service task under its topic, its handler or its id; a script
      task with its script; a user task for its assignee; a call activity of the called element; and any
      other task is a service task under its name. */
  lemma TasksKept(b: Builder, sp: XmlSubProcess, lookups: Lookups, x: XmlSubProcess)
    requires DistinctIds(b, AllNodes(sp, lookups)) && Inside(x, sp)
    ensures var r := Flattened(b, sp, lookups);
      && (forall t <- x.serviceTasks :: Has(r, (t.id, ServiceTask(FirstGiven(t.topic, t.handler, t.id)))))
      && (forall t <- x.scriptTasks :: Has(r, (t.id, ScriptTask(FirstGiven(t.script, t.dataScript, "")))))
      && (forall t <- x.userTasks :: Has(r, (t.id, UserTask(FirstGiven(t.assignee, None, "unassigned")))))
      && (forall t <- x.otherTasks :: Has(r, (t.id, ServiceTask(FirstGiven(t.name, None, t.id)))))
      && (forall t <- x.callActivities :: Has(r, (t.id, CallActivity(FirstGiven(t.calledElement, None, t.id)))))
  {
    OwnNodesFlattened(b, sp, lookups, x);
    OwnTasksAre(x, lookups);
    hide AllNodes, OwnNodes, Flattened, DistinctIds, Inside, Has;
    TasksAre(Flattened(b, sp, lookups), x, lookups);
  }

  lemma TasksAre(r: Builder, x: XmlSubProcess, lookups: Lookups)
    requires forall e <- OwnNodes(x, lookups) :: Has(r, e)
    ensures forall t <- x.serviceTasks :: Has(r, (t.id, ServiceTask(FirstGiven(t.topic, t.handler, t.id))))
    ensures forall t <- x.scriptTasks :: Has(r, (t.id, ScriptTask(FirstGiven(t.script, t.dataScript, ""))))
    ensures forall t <- x.userTasks :: Has(r, (t.id, UserTask(FirstGiven(t.assignee, None, "unassigned"))))
    ensures forall t <- x.otherTasks :: Has(r, (t.id, ServiceTask(FirstGiven(t.name, None, t.id))))
    ensures forall t <- x.callActivities :: Has(r, (t.id, CallActivity(FirstGiven(t.calledElement, None, t.id))))
  {
    OwnTasksAre(x, lookups);
    hide OwnNodes, Has;
    forall t | t in x.serviceTasks ensures Has(r, (t.id, ServiceTask(FirstGiven(t.topic, t.handler, t.id)))) {
      assert ServiceNode(t) in OwnNodes(x, lookups);
    }
    forall t | t in x.scriptTasks ensures Has(r, (t.id, ScriptTask(FirstGiven(t.script, t.dataScript, "")))) {
      assert ScriptNode(t) in OwnNodes(x, lookups);
    }
    forall t | t in x.userTasks ensures Has(r, (t.id, UserTask(FirstGiven(t.assignee, None, "unassigned")))) {
      assert UserNode(t) in OwnNodes(x, lookups);
    }
    forall t | t in x.otherTasks ensures Has(r, (t.id, ServiceTask(FirstGiven(t.name, None, t.id)))) {
      assert OtherNode(t) in OwnNodes(x, lookups);
    }
    forall t | t in x.callActivities ensures Has(r, (t.id, CallActivity(FirstGiven(t.calledElement, None, t.id)))) {
      assert CallNode(t) in OwnNodes(x, lookups);
    }
  }

  /** What a boundary event of the XML becomes: attached where it was, interrupting unless it says
      otherwise, and with the name its reference stands for. */
  ghost predicate BoundaryAs(ev: XmlBoundary, el: BpmnElement, lookups: Lookups) {
    && el.IsBoundary() && el.attachedTo == ev.attachedTo
    && match ev.event
       case TimerXml(t) =>
         el.BoundaryTimerEvent? && ParseTimer(t, lookups) == Some(el.timer)
         && (el.cancelActivity <==> ev.cancelActivity != Some(false))
       case MessageXml(ref) =>
         el.BoundaryMessageEvent? && (el.cancelActivity <==> ev.cancelActivity != Some(false))
         && el.messageName == (if ref.None? then "unknown" else if ref.value in lookups.messages
                               then lookups.messages[ref.value] else ref.value)
       case ErrorXml(ref) =>
         el.BoundaryErrorEvent?
         && (el.errorCode.Some? <==> ref.Some? && ref.value in lookups.errors)
         && (el.errorCode.Some? ==> el.errorCode.value == lookups.errors[ref.value])
       case EscalationXml(ref) =>
         el.BoundaryEscalationEvent? && (el.cancelActivity <==> ev.cancelActivity != Some(false))
         && (el.escalationCode.Some? <==> ref.Some? && ref.value in lookups.escalations)
         && (el.escalationCode.Some? ==> el.escalationCode.value == lookups.escalations[ref.value])
       case CompensationXml => el.BoundaryCompensationEvent?
       case NoEvent => false
  }

  /** A boundary event has nothing to become: it has no event definition, or a timer that cannot be read. */
  predicate Unusable(ev: XmlBoundary, lookups: Lookups) {
    ev.event.NoEvent? || (ev.event.TimerXml? && ParseTimer(ev.event.timer, lookups).None?)
  }

  lemma BoundaryNodeIs(ev: XmlBoundary, lookups: Lookups)
    ensures var n := BoundaryNode(ev, lookups);
      && (n.None? <==> Unusable(ev, lookups))
      && (n.Some? ==> n.value.0 == ev.id && BoundaryAs(ev, n.value.1, lookups))
  {
    hide ParseTimer;
  }

  lemma {:induction false} BoundaryNodesHave(s: seq<XmlBoundary>, lookups: Lookups)
    ensures forall ev <- s :: !Unusable(ev, lookups) ==> BoundaryNode(ev, lookups).value in BoundaryNodes(s, lookups)
    decreases |s|
  {
    if s != [] {
      BoundaryNodesHave(s[1..], lookups);
      BoundaryNodeIs(s[0], lookups);
      hide BoundaryNode, Unusable;
      assert s == [s[0]] + s[1..];
    }
  }

  /** At every depth, every boundary event with a usable event definition is a node that keeps what it is
      attached to, whether it interrupts and what it waits for. */
  lemma BoundaryEventsKept(b: Builder, sp: XmlSubProcess, lookups: Lookups, x: XmlSubProcess)
    requires DistinctIds(b, AllNodes(sp, lookups)) && Inside(x, sp)
    ensures var r := Flattened(b, sp, lookups);
      forall ev <- x.boundaryEvents :: !Unusable(ev, lookups) ==>
        ev.id in r.nodes && BoundaryAs(ev, r.nodes[ev.id], lookups)
  {
    OwnNodesFlattened(b, sp, lookups, x);
    BoundaryNodesHave(x.boundaryEvents, lookups);
    hide AllNodes, OwnNodes, Flattened, DistinctIds, Inside, BoundaryNode, BoundaryNodes, BoundaryAs, Unusable;
    var r := Flattened(b, sp, lookups);
    forall ev | ev in x.boundaryEvents && !Unusable(ev, lookups)
      ensures ev.id in r.nodes && BoundaryAs(ev, r.nodes[ev.id], lookups)
    {
      BoundaryNodeIs(ev, lookups);
      OwnNodesHold(x, lookups, BoundaryNode(ev, lookups).value);
      assert Has(r, BoundaryNode(ev, lookups).value);
    }
  }

  /** A timer is read from its duration alone when it has one, else from its date, else from its cycle: a
      cycle that starts with `R` repeats an interval, any other is a cron expression. A timer that says
      nothing is due at once. */
  lemma TimerIsRead(t: XmlTimer, lookups: Lookups, n: nat, times: Option<nat>)
    requires n <= U64_MAX && (times.Some? ==> times.value <= U32_MAX)
    ensures t.duration == Some(PrintSeconds(n)) ==> ParseTimer(t, lookups) == Some(Duration(n))
    ensures t.duration.Some? && ParseTimer(t, lookups).Some? ==> ParseTimer(t, lookups).value.Duration?
    ensures t.duration.None? && t.date.Some? ==>
      var date := lookups.date(Trim(t.date.value));
      && (date.Some? ==> ParseTimer(t, lookups) == Some(AbsoluteDate(date.value)))
      && (date.None? ==> ParseTimer(t, lookups).None?)
    ensures t.duration.None? && t.date.None? && t.cycle == Some(PrintCount(times) + "/" + PrintSeconds(n)) ==>
      ParseTimer(t, lookups) == Some(RepeatingInterval(times, n))
    ensures t == XmlTimer(None, None, None) ==> ParseTimer(t, lookups) == Some(Duration(0))
  {
    PrintParse(n);
    IntervalRoundTrip(times, n);
    CycleIsTight(times, n);
    hide ParseDuration, ParseRepeating, Trim, PrintSeconds, PrintCount;
  }

  lemma CycleIsTight(times: Option<nat>, n: nat)
    ensures var cycle := PrintCount(times) + "/" + PrintSeconds(n); Trim(cycle) == cycle && cycle[0] == 'R'
  {
    var cycle := PrintCount(times) + "/" + PrintSeconds(n);
    assert cycle[0] == 'R' && cycle[|cycle| - 1] == 'S';
    hide PrintCount, PrintSeconds;
    TrimTight(cycle);
  }

  lemma CronIsRead(t: XmlTimer, lookups: Lookups)
    requires t.duration.None? && t.date.None? && t.cycle.Some? && !("R" <= Trim(t.cycle.value))
    ensures lookups.cron(Trim(t.cycle.value)) ==> ParseTimer(t, lookups) == Some(CronCycle(Trim(t.cycle.value), None))
    ensures !lookups.cron(Trim(t.cycle.value)) ==> ParseTimer(t, lookups).None?
  {
    hide ParseRepeating, Trim;
  }

  /** The nodes of a flattened definition are those before and those of all depths. */
  lemma NodesAre(b: Builder, sp: XmlSubProcess, lookups: Lookups, id: string)
    requires DistinctIds(b, AllNodes(sp, lookups))
    ensures id in Flattened(b, sp, lookups).nodes
       <==> id in b.nodes || exists k :: 0 <= k < |AllNodes(sp, lookups)| && AllNodes(sp, lookups)[k].0 == id
  {
    AddNodesKeepsEach(b, AllNodes(sp, lookups));
    NodesThenFlows(AddNodes(b, AllNodes(sp, lookups)), [], AllFlows(sp));
    hide AllNodes, AddNodes, AddFlows, DistinctIds;
  }

  /** A gateway inside a sub-process whose default is the id of one of its flows: the default is not
      turned into the flow's target. It names a node exactly when some node has the flow's id. */
  lemma DefaultStaysFlowId(b: Builder, sp: XmlSubProcess, lookups: Lookups, x: XmlSubProcess, g: XmlGateway, f: XmlFlow)
    requires DistinctIds(b, AllNodes(sp, lookups)) && Inside(x, sp)
    requires (g in x.exclusiveGateways || g in x.complexGateways) && f in x.flows && g.default == Some(f.id)
    ensures var r := Flattened(b, sp, lookups);
      && g.id in r.nodes
      && (r.nodes[g.id] == ExclusiveGateway(Some(f.id))
         || (r.nodes[g.id].ComplexGateway? && r.nodes[g.id].default == Some(f.id)))
      && (f.id in r.nodes <==> f.id in b.nodes || exists k ::
         0 <= k < |AllNodes(sp, lookups)| && AllNodes(sp, lookups)[k].0 == f.id)
  {
    hide AllNodes, AllFlows, DistinctIds, Inside, Flattened, PartOf;
    NodesAre(b, sp, lookups, f.id);
    StructureKept(b, sp, lookups, x);
  }

  /** The start a sub-process leads to is a node exactly when it has a start event, unless some other
      element happens to have that name. */
  lemma StartExistsIffDeclared(b: Builder, sp: XmlSubProcess, lookups: Lookups, x: XmlSubProcess)
    requires DistinctIds(b, AllNodes(sp, lookups)) && Inside(x, sp)
    requires x.id + "_start" !in b.nodes
    requires forall k :: 0 <= k < |AllNodes(sp, lookups)| ==> AllNodes(sp, lookups)[k].0 != x.id + "_start"
    ensures StartOf(x) in Flattened(b, sp, lookups).nodes <==> x.startEvents != []
  {
    var all := AllNodes(sp, lookups);
    AddNodesKeepsEach(b, all);
    NodesThenFlows(AddNodes(b, all), [], AllFlows(sp));
    StructureKept(b, sp, lookups, x);
    hide AllNodes, AddNodes, AddFlows;
    if x.startEvents != [] {
      assert x.startEvents[0] in x.startEvents;
    }
  }
}
