/** BPMN elements and process definitions (engine-core/src/domain). */
module Definition {
  import opened Values

  type Time = int

  /** The largest number of seconds a chrono duration can hold. */
  const MAX_CHRONO_SECS: nat := 9223372036854775

  datatype TimerDefinition =
    | Duration(secs: nat)
    | AbsoluteDate(at: Time)
    | CronCycle(expression: string, maxRepetitions: Option<nat>)
    | RepeatingInterval(repetitions: Option<nat>, interval: nat)
  {
    predicate IsRecurring() {
      CronCycle? || RepeatingInterval?
    }

    /** The next expiry seen from `now`; `cron` answers for cron expressions. */
    function NextExpiry(now: Time, cron: (string, Time) -> Option<Time>): Option<Time> {
      match this
      case Duration(secs) => if secs <= MAX_CHRONO_SECS then Some(now + secs) else None
      case AbsoluteDate(at) => if at > now then Some(at) else None
      case CronCycle(expression, _) => cron(expression, now)
      case RepeatingInterval(_, interval) => if interval <= MAX_CHRONO_SECS then Some(now + interval) else None
    }
  }

  datatype BpmnElement =
    | StartEvent
    | TimerStartEvent(timer: TimerDefinition)
    | EndEvent
    | TerminateEndEvent
    | ServiceTask(topic: string)
    | UserTask(assignee: string)
    | ScriptTask(script: string)
    | SendTask(messageName: string)
    | ExclusiveGateway(default: Option<string>)
    | InclusiveGateway
    | ParallelGateway
    | EventBasedGateway
    | ComplexGateway(joinCondition: Option<string>, default: Option<string>)
    | TimerCatchEvent(timer: TimerDefinition)
    | BoundaryTimerEvent(attachedTo: string, timer: TimerDefinition, cancelActivity: bool)
    | MessageStartEvent(messageName: string)
    | MessageCatchEvent(messageName: string)
    | BoundaryMessageEvent(attachedTo: string, messageName: string, cancelActivity: bool)
    | BoundaryErrorEvent(attachedTo: string, errorCode: Option<string>)
    | ErrorEndEvent(code: string)
    | EscalationEndEvent(code: string)
    | EscalationThrowEvent(code: string)
    | BoundaryEscalationEvent(attachedTo: string, escalationCode: Option<string>, cancelActivity: bool)
    | CompensationThrowEvent(activityRef: Option<string>)
    | CompensationEndEvent(activityRef: Option<string>)
    | BoundaryCompensationEvent(attachedTo: string)
    | CallActivity(calledElement: string)
    | EmbeddedSubProcess(startNodeId: string)
    | SubProcessEndEvent(subProcessId: string)
  {
    predicate IsStart() {
      StartEvent? || TimerStartEvent? || MessageStartEvent?
    }

    predicate IsEnd() {
      || EndEvent? || ErrorEndEvent? || EscalationEndEvent? || CompensationEndEvent?
      || TerminateEndEvent? || SubProcessEndEvent?
    }

    predicate IsBoundary() {
      || BoundaryTimerEvent? || BoundaryMessageEvent? || BoundaryErrorEvent?
      || BoundaryEscalationEvent? || BoundaryCompensationEvent?
    }

    predicate IsGateway() {
      ExclusiveGateway? || InclusiveGateway? || ParallelGateway? || EventBasedGateway? || ComplexGateway?
    }

    /** Activities: the elements whose boundary events the engine registers. */
    predicate IsActivity() {
      UserTask? || ServiceTask? || CallActivity?
    }
  }

  datatype SequenceFlow = SequenceFlow(target: string, condition: Option<string>)

  /** Event sub-process triggers registered when an instance starts. */
  datatype ScopeEventListener =
    | TimerListener(timer: TimerDefinition, targetDefinition: string)
    | MessageListener(messageName: string, targetDefinition: string)
    | ErrorListener(targetDefinition: string)

  /** A process definition. `order` is the iteration order of the `nodes` hash map, which a
      definition never changes once it is built. */
  datatype ProcessDefinition = ProcessDefinition(
    key: Uuid,
    id: string,
    version: int,
    nodes: map<string, BpmnElement>,
    order: seq<string>,
    flows: map<string, seq<SequenceFlow>>,
    eventListeners: seq<ScopeEventListener>,
    subProcesses: seq<ProcessDefinition>)
  {
    function NextNodes(from: string): seq<SequenceFlow> {
      if from in flows then flows[from] else []
    }
  }

  /** A token travelling through a definition. */
  datatype Token = Token(id: Uuid, currentNode: string, variables: Variables, isMerged: bool)

  // ---- Structural validation (`ProcessDefinition::new`) ----

  function Outgoing(d: ProcessDefinition, node: string): nat {
    |d.NextNodes(node)|
  }

  /** The flows in `fs` that lead to `node`. */
  function CountTo(fs: seq<SequenceFlow>, node: string): nat {
    if fs == [] then 0 else (if fs[0].target == node then 1 else 0) + CountTo(fs[1..], node)
  }

  /** The number of sequence flows that lead to `node`, over all sources. */
  ghost function Incoming(flows: map<string, seq<SequenceFlow>>, node: string): nat {
    if flows == map[] then 0
    else
      var from :| from in flows;
      CountTo(flows[from], node) + Incoming(flows - {from}, node)
  }

  lemma {:induction false} IncomingSplit(flows: map<string, seq<SequenceFlow>>, node: string, from: string)
    requires from in flows
    ensures Incoming(flows, node) == CountTo(flows[from], node) + Incoming(flows - {from}, node)
    decreases |flows|
  {
    var pick :| pick in flows && Incoming(flows, node) == CountTo(flows[pick], node) + Incoming(flows - {pick}, node);
    if pick != from {
      IncomingSplit(flows - {pick}, node, from);
      IncomingSplit(flows - {from}, node, pick);
      assert flows - {pick} - {from} == flows - {from} - {pick};
    }
  }

  ghost predicate OneStart(d: ProcessDefinition) {
    && (exists n <- d.nodes :: d.nodes[n].IsStart())
    && (forall n, m :: n in d.nodes && m in d.nodes && d.nodes[n].IsStart() && d.nodes[m].IsStart() ==> n == m)
  }

  ghost predicate SomeEnd(d: ProcessDefinition) {
    exists n <- d.nodes :: d.nodes[n].IsEnd()
  }

  ghost predicate TargetsExist(d: ProcessDefinition) {
    forall from <- d.flows :: from in d.nodes && forall sf <- d.flows[from] :: sf.target in d.nodes
  }

  ghost predicate BoundariesAttached(d: ProcessDefinition) {
    forall n <- d.nodes :: d.nodes[n].IsBoundary() ==> d.nodes[n].attachedTo in d.nodes
  }

  ghost predicate NoDeadEnds(d: ProcessDefinition) {
    forall n <- d.nodes ::
      d.nodes[n].IsEnd() || d.nodes[n].EmbeddedSubProcess? || d.nodes[n].BoundaryCompensationEvent?
        || Outgoing(d, n) >= 1
  }

  ghost predicate GatewaysBranch(d: ProcessDefinition) {
    forall n <- d.nodes :: d.nodes[n].IsGateway() ==> Outgoing(d, n) >= 2 || Incoming(d.flows, n) >= 2
  }

  /** What an event-based gateway asks of its targets. */
  predicate LeadsToCatches(d: ProcessDefinition, node: string) {
    forall sf <- d.NextNodes(node) :: sf.target in d.nodes ==>
      d.nodes[sf.target].MessageCatchEvent? || d.nodes[sf.target].TimerCatchEvent?
  }

  ghost predicate EventGatewaysCatch(d: ProcessDefinition) {
    forall n <- d.nodes :: d.nodes[n].EventBasedGateway? ==> LeadsToCatches(d, n)
  }

  /** What a definition satisfies once `ProcessDefinition::new` has accepted it. */
  ghost predicate Valid(d: ProcessDefinition) {
    && OneStart(d) && SomeEnd(d) && TargetsExist(d) && BoundariesAttached(d) && NoDeadEnds(d)
    && GatewaysBranch(d) && EventGatewaysCatch(d) && Enumerates(d.order, d.nodes.Keys)
  }

  // ---- Counting flows ----

  ghost function SumOver(nodes: set<string>, f: string -> nat): nat {
    if nodes == {} then 0
    else
      var n :| n in nodes;
      f(n) + SumOver(nodes - {n}, f)
  }

  lemma {:induction false} SumSplit(nodes: set<string>, f: string -> nat, n: string)
    requires n in nodes
    ensures SumOver(nodes, f) == f(n) + SumOver(nodes - {n}, f)
    decreases |nodes|
  {
    var pick :| pick in nodes && SumOver(nodes, f) == f(pick) + SumOver(nodes - {pick}, f);
    if pick != n {
      SumSplit(nodes - {pick}, f, n);
      SumSplit(nodes - {n}, f, pick);
      assert nodes - {pick} - {n} == nodes - {n} - {pick};
    }
  }

  lemma {:induction false} SumAdds(nodes: set<string>, f: string -> nat, g: string -> nat, h: string -> nat)
    requires forall n <- nodes :: h(n) == f(n) + g(n)
    ensures SumOver(nodes, h) == SumOver(nodes, f) + SumOver(nodes, g)
    decreases |nodes|
  {
    if nodes != {} {
      var n :| n in nodes;
      SumSplit(nodes, f, n);
      SumSplit(nodes, g, n);
      SumSplit(nodes, h, n);
      SumAdds(nodes - {n}, f, g, h);
    }
  }

  lemma {:induction false} SumOfPoint(nodes: set<string>, f: string -> nat, at: string)
    requires forall n <- nodes :: f(n) == if n == at then 1 else 0
    ensures SumOver(nodes, f) == if at in nodes then 1 else 0
    decreases |nodes|
  {
    if nodes != {} {
      var n := if at in nodes then at else var m :| m in nodes; m;
      SumSplit(nodes, f, n);
      SumOfPoint(nodes - {n}, f, at);
    }
  }

  ghost function TotalFlows(flows: map<string, seq<SequenceFlow>>): nat {
    if flows == map[] then 0
    else
      var from :| from in flows;
      |flows[from]| + TotalFlows(flows - {from})
  }

  lemma {:induction false} EachFlowCountedOnce(fs: seq<SequenceFlow>, nodes: set<string>, count: string -> nat)
    requires forall sf <- fs :: sf.target in nodes
    requires forall n <- nodes :: count(n) == CountTo(fs, n)
    ensures SumOver(nodes, count) == |fs|
    decreases |fs|
  {
    if fs == [] {
      SumOfZero(nodes, count);
    } else {
      var head := (n: string) => (if fs[0].target == n then 1 else 0) as nat;
      var tail := (n: string) => CountTo(fs[1..], n);
      SumAdds(nodes, head, tail, count);
      SumOfPoint(nodes, head, fs[0].target);
      assert fs[0] in fs;
      EachFlowCountedOnce(fs[1..], nodes, tail);
    }
  }

  lemma {:induction false} SumOfZero(nodes: set<string>, f: string -> nat)
    requires forall n <- nodes :: f(n) == 0
    ensures SumOver(nodes, f) == 0
    decreases |nodes|
  {
    if nodes != {} {
      var n :| n in nodes;
      SumSplit(nodes, f, n);
      SumOfZero(nodes - {n}, f);
    }
  }

  /** Incoming counts summed over the nodes give the number of flows: every flow of a definition whose
      targets exist is counted once, at its target. */
  lemma {:induction false} IncomingCountsSumToFlows(flows: map<string, seq<SequenceFlow>>, nodes: set<string>)
    requires forall from <- flows :: forall sf <- flows[from] :: sf.target in nodes
    ensures SumOver(nodes, n => Incoming(flows, n)) == TotalFlows(flows)
    decreases |flows|
  {
    var incoming := n => Incoming(flows, n);
    if flows == map[] {
      SumOfZero(nodes, incoming);
    } else {
      var from :| from in flows && TotalFlows(flows) == |flows[from]| + TotalFlows(flows - {from});
      var here := n => CountTo(flows[from], n);
      var rest := n => Incoming(flows - {from}, n);
      forall n | n in nodes ensures incoming(n) == here(n) + rest(n) {
        IncomingSplit(flows, n, from);
      }
      SumAdds(nodes, here, rest, incoming);
      EachFlowCountedOnce(flows[from], nodes, here);
      IncomingCountsSumToFlows(flows - {from}, nodes);
    }
  }

  /** Counts the flows that lead to `node` by walking the flow table in any order. */
  method IncomingFlowCount(d: ProcessDefinition, node: string) returns (n: nat)
    ensures n == Incoming(d.flows, node)
  {
    n := 0;
    var left := d.flows;
    while left != map[]
      invariant n + Incoming(left, node) == Incoming(d.flows, node)
      decreases |left|
    {
      var from :| from in left;
      IncomingSplit(left, node, from);
      var fs := left[from];
      var i := 0;
      while i < |fs|
        invariant 0 <= i <= |fs|
        invariant n + CountTo(fs[i..], node) + Incoming(left - {from}, node) == Incoming(d.flows, node)
      {
        if fs[i].target == node {
          n := n + 1;
        }
        assert fs[i..][1..] == fs[i + 1..];
        i := i + 1;
      }
      left := left - {from};
    }
  }
}
