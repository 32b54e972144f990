/** The checks a definition passes when it is built (engine-core/src/domain/definition.rs). */
module Validation {
  import opened Values
  import opened Definition

  /** Counts start events: `None` for none, the node for one, and whether there are more. */
  method FindStarts(d: ProcessDefinition) returns (some: bool, many: bool)
    requires Enumerates(d.order, d.nodes.Keys)
    ensures some && !many <==> OneStart(d)
  {
    some, many := false, false;
    ghost var first := "";
    var k := 0;
    while k < |d.order|
      invariant 0 <= k <= |d.order|
      invariant some ==> first in d.order[..k] && first in d.nodes && d.nodes[first].IsStart()
      invariant !some ==> !many && forall j :: 0 <= j < k ==> !d.nodes[d.order[j]].IsStart()
      invariant !many ==> forall j :: 0 <= j < k && d.nodes[d.order[j]].IsStart() ==> d.order[j] == first
      invariant many ==> exists j :: 0 <= j < k && d.nodes[d.order[j]].IsStart() && d.order[j] != first
    {
      assert d.order[k] in d.order && d.order[k] in d.nodes.Keys;
      assert d.order[..k + 1] == d.order[..k] + [d.order[k]];
      if d.nodes[d.order[k]].IsStart() {
        if some {
          assert first in d.order[..k] && d.order[k] != first;
          many := true;
        } else {
          some := true;
          first := d.order[k];
        }
      }
      k := k + 1;
    }
    assert forall n <- d.nodes :: n in d.nodes.Keys && n in d.order;
    if some && many {
      ghost var j :| 0 <= j < |d.order| && d.nodes[d.order[j]].IsStart() && d.order[j] != first;
      assert d.order[j] in d.order && d.order[j] in d.nodes.Keys;
    }
  }

  /** Whether every node passes a check. */
  method EveryNode(d: ProcessDefinition, check: BpmnElement -> bool) returns (all: bool)
    requires Enumerates(d.order, d.nodes.Keys)
    ensures all <==> forall n <- d.nodes :: check(d.nodes[n])
  {
    var k := 0;
    while k < |d.order|
      invariant 0 <= k <= |d.order| && forall j :: 0 <= j < k ==> check(d.nodes[d.order[j]])
    {
      assert d.order[k] in d.order && d.order[k] in d.nodes.Keys;
      if !check(d.nodes[d.order[k]]) {
        return false;
      }
      k := k + 1;
    }
    assert forall n <- d.nodes :: n in d.nodes.Keys && n in d.order;
    all := true;
  }

  /** The first node, as source or target of a flow, that does not exist. */
  method FindMissing(d: ProcessDefinition, flowOrder: seq<string>) returns (missing: Option<string>)
    requires Enumerates(flowOrder, d.flows.Keys)
    ensures missing.None? <==> TargetsExist(d)
    ensures missing.Some? ==> missing.value !in d.nodes
  {
    var k := 0;
    while k < |flowOrder|
      invariant 0 <= k <= |flowOrder|
      invariant forall j :: 0 <= j < k ==> flowOrder[j] in d.nodes && forall sf <- d.flows[flowOrder[j]] ::
        sf.target in d.nodes
    {
      var from := flowOrder[k];
      assert from in flowOrder && from in d.flows.Keys;
      if from !in d.nodes {
        return Some(from);
      }
      var m := 0;
      while m < |d.flows[from]|
        invariant 0 <= m <= |d.flows[from]| && forall j :: 0 <= j < m ==> d.flows[from][j].target in d.nodes
      {
        if d.flows[from][m].target !in d.nodes {
          assert d.flows[from][m] in d.flows[from];
          return Some(d.flows[from][m].target);
        }
        m := m + 1;
      }
      k := k + 1;
    }
    assert forall from <- d.flows :: from in d.flows.Keys && from in flowOrder;
    missing := None;
  }

  predicate Attached(d: ProcessDefinition, n: string)
    requires n in d.nodes
  {
    d.nodes[n].IsBoundary() ==> d.nodes[n].attachedTo in d.nodes
  }

  predicate LeadsOn(d: ProcessDefinition, n: string)
    requires n in d.nodes
  {
    d.nodes[n].IsEnd() || d.nodes[n].EmbeddedSubProcess? || d.nodes[n].BoundaryCompensationEvent? || Outgoing(d, n) >= 1
  }

  predicate CatchesOnly(d: ProcessDefinition, n: string)
    requires n in d.nodes
  {
    d.nodes[n].EventBasedGateway? ==> LeadsToCatches(d, n)
  }

  /** The checks of boundary events and dead ends, node by node. */
  method CheckNodes(d: ProcessDefinition) returns (attached: bool, alive: bool)
    requires Enumerates(d.order, d.nodes.Keys)
    ensures attached <==> BoundariesAttached(d)
    ensures alive <==> NoDeadEnds(d)
  {
    attached, alive := true, true;
    var k := 0;
    while k < |d.order|
      invariant 0 <= k <= |d.order|
      invariant forall j :: 0 <= j < k ==> d.order[j] in d.nodes
      invariant attached <==> forall j :: 0 <= j < k ==> Attached(d, d.order[j])
      invariant alive <==> forall j :: 0 <= j < k ==> LeadsOn(d, d.order[j])
    {
      assert d.order[k] in d.order && d.order[k] in d.nodes.Keys;
      attached := attached && Attached(d, d.order[k]);
      alive := alive && LeadsOn(d, d.order[k]);
      k := k + 1;
    }
    assert forall n <- d.nodes :: n in d.nodes.Keys && n in d.order;
    assert BoundariesAttached(d) <==> forall n <- d.nodes :: Attached(d, n);
    assert NoDeadEnds(d) <==> forall n <- d.nodes :: LeadsOn(d, n);
    assert forall j :: 0 <= j < |d.order| ==> d.order[j] in d.nodes;
  }

  /** The checks of gateways: two flows in or out, and only catch events after an event-based one. */
  method CheckGateways(d: ProcessDefinition) returns (ok: bool)
    requires Enumerates(d.order, d.nodes.Keys)
    ensures ok <==> GatewaysBranch(d) && EventGatewaysCatch(d)
  {
    var k := 0;
    while k < |d.order|
      invariant 0 <= k <= |d.order|
      invariant forall j :: 0 <= j < k ==> d.order[j] in d.nodes && CatchesOnly(d, d.order[j])
      invariant forall j :: 0 <= j < k ==>
        d.nodes[d.order[j]].IsGateway() ==> Outgoing(d, d.order[j]) >= 2 || Incoming(d.flows, d.order[j]) >= 2
    {
      var n := d.order[k];
      assert n in d.order && n in d.nodes.Keys;
      if d.nodes[n].IsGateway() {
        var incoming := IncomingFlowCount(d, n);
        if Outgoing(d, n) < 2 && incoming < 2 {
          return false;
        }
      }
      if !CatchesOnly(d, n) {
        return false;
      }
      k := k + 1;
    }
    assert forall n <- d.nodes :: n in d.nodes.Keys && n in d.order;
    ok := true;
  }

  /** `ProcessDefinition::new`: answers why a definition is refused, check by check; it is accepted
      exactly when it is valid. A missing node is reported only when the start and end checks passed. */
  method Validate(d: ProcessDefinition, flowOrder: seq<string>) returns (e: Option<EngineError>)
    requires Enumerates(d.order, d.nodes.Keys) && Enumerates(flowOrder, d.flows.Keys)
    ensures e.None? <==> Valid(d)
    ensures e.Some? ==> e.value == InvalidDefinition || (e.value.NoSuchNode? && e.value.node !in d.nodes)
    ensures e.Some? && e.value.NoSuchNode? ==> OneStart(d) && SomeEnd(d) && !TargetsExist(d)
  {
    var some, many := FindStarts(d);
    if !some || many {
      return Some(InvalidDefinition);
    }
    var noEnd := EveryNode(d, (el: BpmnElement) => !el.IsEnd());
    if noEnd {
      return Some(InvalidDefinition);
    }
    var missing := FindMissing(d, flowOrder);
    if missing.Some? {
      return Some(NoSuchNode(missing.value));
    }
    var attached, alive := CheckNodes(d);
    if !attached || !alive {
      return Some(InvalidDefinition);
    }
    var gateways := CheckGateways(d);
    if !gateways {
      return Some(InvalidDefinition);
    }
    e := None;
  }

  // ---- What acceptance means ----

  /** An element without a way on: an end, a sub-process, whose way on starts inside it, or a compensation
      boundary event, which is only a handler. */
  predicate EndsThere(el: BpmnElement) {
    match el
    case EndEvent | ErrorEndEvent(_) | EscalationEndEvent(_) | CompensationEndEvent(_) | TerminateEndEvent
       | SubProcessEndEvent(_) | EmbeddedSubProcess(_) | BoundaryCompensationEvent(_) => true
    case _ => false
  }

  predicate Branches(el: BpmnElement) {
    match el
    case ExclusiveGateway(_) | InclusiveGateway | ParallelGateway | EventBasedGateway | ComplexGateway(_, _) => true
    case _ => false
  }

  predicate AttachedTo(el: BpmnElement, node: string) {
    match el
    case BoundaryTimerEvent(at, _, _) => at == node
    case BoundaryMessageEvent(at, _, _) => at == node
    case BoundaryErrorEvent(at, _) => at == node
    case BoundaryEscalationEvent(at, _, _) => at == node
    case BoundaryCompensationEvent(at) => at == node
    case _ => false
  }

  /** In an accepted definition there is one start; every token has a way on from every node but the ends;
      every flow and every boundary event hangs on nodes that exist; a gateway has two flows on one side;
      and an event-based gateway leads to events only. */
  lemma AcceptedDefinitions(d: ProcessDefinition, n: string)
    requires Valid(d) && n in d.nodes
    ensures EndsThere(d.nodes[n]) || (n in d.flows && d.flows[n] != [])
    ensures forall node :: AttachedTo(d.nodes[n], node) ==> node in d.nodes
    ensures Branches(d.nodes[n]) ==> (n in d.flows && |d.flows[n]| >= 2) || Incoming(d.flows, n) >= 2
    ensures n in d.flows ==> forall sf <- d.flows[n] :: sf.target in d.nodes
    ensures d.nodes[n] == EventBasedGateway && n in d.flows ==> forall sf <- d.flows[n] ::
      d.nodes[sf.target].MessageCatchEvent? || d.nodes[sf.target].TimerCatchEvent?
    ensures forall a, b :: a in d.nodes && b in d.nodes && StartsThere(d.nodes[a]) && StartsThere(d.nodes[b]) ==> a == b
    ensures exists a <- d.nodes :: StartsThere(d.nodes[a])
  {
    forall a | a in d.nodes ensures d.nodes[a].IsStart() <==> StartsThere(d.nodes[a]) {}
    ElementKinds(d.nodes[n]);
    hide Incoming, Enumerates, EndsThere, Branches, AttachedTo, StartsThere;
    var a :| a in d.nodes && d.nodes[a].IsStart();
    hide OneStart, SomeEnd, TargetsExist, EventGatewaysCatch;
    assert Outgoing(d, n) >= 1 ==> n in d.flows && d.flows[n] != [];
    TargetsOf(d, n);
    OnlyStart(d);
  }

  lemma ElementKinds(el: BpmnElement)
    ensures EndsThere(el) <==> el.IsEnd() || el.EmbeddedSubProcess? || el.BoundaryCompensationEvent?
    ensures Branches(el) <==> el.IsGateway()
    ensures forall node :: AttachedTo(el, node) <==> el.IsBoundary() && el.attachedTo == node
    ensures StartsThere(el) <==> el.IsStart()
  {}

  lemma TargetsOf(d: ProcessDefinition, n: string)
    requires TargetsExist(d) && EventGatewaysCatch(d) && n in d.nodes
    ensures n in d.flows ==> forall sf <- d.flows[n] :: sf.target in d.nodes
    ensures d.nodes[n] == EventBasedGateway && n in d.flows ==> forall sf <- d.flows[n] ::
      d.nodes[sf.target].MessageCatchEvent? || d.nodes[sf.target].TimerCatchEvent?
  {}

  lemma OnlyStart(d: ProcessDefinition)
    requires OneStart(d)
    ensures forall a, b :: a in d.nodes && b in d.nodes && StartsThere(d.nodes[a]) && StartsThere(d.nodes[b]) ==> a == b
  {}

  predicate StartsThere(el: BpmnElement) {
    el.StartEvent? || el.TimerStartEvent? || el.MessageStartEvent?
  }
}
