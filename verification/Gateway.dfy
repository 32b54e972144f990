/** Gateway routing (engine-core/src/engine/gateway.rs). */
module Gateway {
  import opened Values
  import opened Condition
  import opened Definition

  /** What a gateway tells the executor to do. Forked tokens carry the ids `nextId`, `nextId + 1`, ... */
  datatype NextAction =
    | Continue(token: Token)
    | ContinueMultiple(tokens: seq<Token>)
    | WaitForJoin(gateway: string, token: Token)

  // ---- Reference definitions of the routing decisions ----

  predicate Taken(sf: SequenceFlow, variables: Variables) {
    sf.condition.Some? && EvaluateCondition(sf.condition.value, variables)
  }

  /** The target of the first flow whose condition holds. */
  function FirstMatch(flows: seq<SequenceFlow>, variables: Variables): Option<string> {
    if flows == [] then None
    else if Taken(flows[0], variables) then Some(flows[0].target)
    else FirstMatch(flows[1..], variables)
  }

  predicate Keeps(sf: SequenceFlow, variables: Variables, skip: Option<string>) {
    if sf.condition.Some? then Taken(sf, variables) else Some(sf.target) != skip
  }

  /** Inclusive routing: unconditional flows and those whose condition holds. A complex gateway
      leaves out unconditional flows to its default target. */
  function Matched(flows: seq<SequenceFlow>, variables: Variables, skip: Option<string>): seq<string> {
    if flows == [] then []
    else
      (if Keeps(flows[0], variables, skip) then [flows[0].target] else []) + Matched(flows[1..], variables, skip)
  }

  function Targets(flows: seq<SequenceFlow>): seq<string> {
    if flows == [] then [] else [flows[0].target] + Targets(flows[1..])
  }

  function Forked(targets: seq<string>, variables: Variables, nextId: Uuid): (r: seq<Token>)
    ensures |r| == |targets|
    ensures forall k :: 0 <= k < |r| ==> r[k] == Token(nextId + k, targets[k], variables, false)
  {
    if targets == [] then []
    else [Token(nextId, targets[0], variables, false)] + Forked(targets[1..], variables, nextId + 1)
  }

  ghost predicate Joins(d: ProcessDefinition, id: string, token: Token) {
    Incoming(d.flows, id) >= 2 && !token.isMerged
  }

  /** Sends `token` to the targets: on its own when there is one, forked otherwise. */
  function Split(targets: seq<string>, token: Token, nextId: Uuid): NextAction {
    if |targets| == 1 then Continue(token.(isMerged := false, currentNode := targets[0]))
    else ContinueMultiple(Forked(targets, token.variables, nextId))
  }

  ghost function ParallelRoute(d: ProcessDefinition, id: string, token: Token, nextId: Uuid): Result<NextAction> {
    if Joins(d, id, token) then Ok(WaitForJoin(id, token))
    else Ok(Split(Targets(d.NextNodes(id)), token, nextId))
  }

  function ExclusiveTarget(d: ProcessDefinition, id: string, token: Token, default: Option<string>): Option<string> {
    var m := FirstMatch(d.NextNodes(id), token.variables);
    if m.Some? then m else default
  }

  function ExclusiveRoute(d: ProcessDefinition, id: string, token: Token, default: Option<string>): Result<NextAction> {
    match ExclusiveTarget(d, id, token, default)
    case Some(t) => Ok(Continue(token.(currentNode := t)))
    case None => Err(NoMatchingCondition(id))
  }

  ghost function InclusiveRoute(d: ProcessDefinition, id: string, token: Token, nextId: Uuid): Result<NextAction> {
    var m := Matched(d.NextNodes(id), token.variables, None);
    if Joins(d, id, token) then Ok(WaitForJoin(id, token))
    else if m == [] then Err(NoMatchingCondition(id))
    else Ok(Split(m, token, nextId))
  }

  ghost function ComplexRoute(d: ProcessDefinition, id: string, token: Token, default: Option<string>, nextId: Uuid)
    : Result<NextAction>
  {
    var m := Matched(d.NextNodes(id), token.variables, default);
    if Joins(d, id, token) then Ok(WaitForJoin(id, token))
    else if m == [] && default.None? then Err(NoMatchingCondition(id))
    else Ok(Split(if m == [] then [default.value] else m, token, nextId))
  }

  // ---- The gateways as they run: the token is rewritten, targets are collected in a loop ----

  method ForkTokens(targets: seq<string>, variables: Variables, nextId: Uuid) returns (forked: seq<Token>)
    ensures forked == Forked(targets, variables, nextId)
  {
    forked := [];
    for i := 0 to |targets|
      invariant |forked| == i
      invariant forall k :: 0 <= k < i ==> forked[k] == Token(nextId + k, targets[k], variables, false)
    {
      forked := forked + [Token(nextId + i, targets[i], variables, false)];
    }
  }

  lemma MatchedStep(before: seq<string>, flows: seq<SequenceFlow>, variables: Variables, skip: Option<string>, i: nat)
    requires i < |flows|
    ensures before + Matched(flows[i..], variables, skip)
         == (if Keeps(flows[i], variables, skip) then before + [flows[i].target] else before)
              + Matched(flows[i + 1..], variables, skip)
  {
    assert flows[i..][1..] == flows[i + 1..];
  }

  method CollectMatched(flows: seq<SequenceFlow>, variables: Variables, skip: Option<string>)
    returns (matched: seq<string>)
    ensures matched == Matched(flows, variables, skip)
  {
    matched := [];
    for i := 0 to |flows|
      invariant matched + Matched(flows[i..], variables, skip) == Matched(flows, variables, skip)
    {
      var sf := flows[i];
      MatchedStep(matched, flows, variables, skip, i);
      if sf.condition.Some? {
        if EvaluateCondition(sf.condition.value, variables) {
          matched := matched + [sf.target];
        }
      } else if skip != Some(sf.target) {
        matched := matched + [sf.target];
      }
    }
  }

  method ExecuteParallelGateway(d: ProcessDefinition, id: string, token: Token, nextId: Uuid)
    returns (r: Result<NextAction>)
    ensures r == ParallelRoute(d, id, token, nextId)
  {
    var outgoing := d.NextNodes(id);
    var incoming := IncomingFlowCount(d, id);
    if incoming >= 2 && !token.isMerged {
      return Ok(WaitForJoin(id, token));
    }
    var t := token.(isMerged := false);
    TargetsAt(outgoing);
    if |outgoing| == 1 {
      return Ok(Continue(t.(currentNode := outgoing[0].target)));
    }
    var targets := [];
    for i := 0 to |outgoing|
      invariant |targets| == i && forall k :: 0 <= k < i ==> targets[k] == outgoing[k].target
    {
      targets := targets + [outgoing[i].target];
    }
    assert targets == Targets(outgoing);
    var forked := ForkTokens(targets, t.variables, nextId);
    r := Ok(ContinueMultiple(forked));
  }

  method ExecuteExclusiveGateway(d: ProcessDefinition, id: string, token: Token, default: Option<string>)
    returns (r: Result<NextAction>)
    ensures r == ExclusiveRoute(d, id, token, default)
  {
    var outgoing := d.NextNodes(id);
    var chosen := None;
    var i := 0;
    while i < |outgoing| && chosen.None?
      invariant 0 <= i <= |outgoing|
      invariant FirstMatch(outgoing, token.variables)
             == if chosen.Some? then chosen else FirstMatch(outgoing[i..], token.variables)
    {
      if outgoing[i].condition.Some? && EvaluateCondition(outgoing[i].condition.value, token.variables) {
        chosen := Some(outgoing[i].target);
      }
      assert outgoing[i..][1..] == outgoing[i + 1..];
      i := i + 1;
    }
    if chosen.None? && default.Some? {
      chosen := default;
    }
    if chosen.None? {
      return Err(NoMatchingCondition(id));
    }
    r := Ok(Continue(token.(currentNode := chosen.value)));
  }

  method ExecuteInclusiveGateway(d: ProcessDefinition, id: string, token: Token, nextId: Uuid)
    returns (r: Result<NextAction>)
    ensures r == InclusiveRoute(d, id, token, nextId)
  {
    var incoming := IncomingFlowCount(d, id);
    if incoming >= 2 && !token.isMerged {
      return Ok(WaitForJoin(id, token));
    }
    var t := token.(isMerged := false);
    var matched := CollectMatched(d.NextNodes(id), t.variables, None);
    if matched == [] {
      return Err(NoMatchingCondition(id));
    }
    if |matched| == 1 {
      return Ok(Continue(t.(currentNode := matched[0])));
    }
    var forked := ForkTokens(matched, t.variables, nextId);
    r := Ok(ContinueMultiple(forked));
  }

  method ExecuteComplexGateway(d: ProcessDefinition, id: string, token: Token, default: Option<string>, nextId: Uuid)
    returns (r: Result<NextAction>)
    ensures r == ComplexRoute(d, id, token, default, nextId)
  {
    var incoming := IncomingFlowCount(d, id);
    if incoming >= 2 && !token.isMerged {
      return Ok(WaitForJoin(id, token));
    }
    var t := token.(isMerged := false);
    var matched := CollectMatched(d.NextNodes(id), t.variables, default);
    if matched == [] {
      if default.None? {
        return Err(NoMatchingCondition(id));
      }
      matched := [default.value];
    }
    if |matched| == 1 {
      return Ok(Continue(t.(currentNode := matched[0])));
    }
    var forked := ForkTokens(matched, t.variables, nextId);
    r := Ok(ContinueMultiple(forked));
  }

  // ---- How the four gateways agree ----

  lemma {:induction false} TargetsAt(flows: seq<SequenceFlow>)
    ensures |Targets(flows)| == |flows|
    ensures forall k :: 0 <= k < |flows| ==> Targets(flows)[k] == flows[k].target
  {
    if flows != [] {
      TargetsAt(flows[1..]);
    }
  }

  /** `Matched` selects: its members are exactly the targets of the flows it keeps. */
  lemma {:induction false} MatchedIff(flows: seq<SequenceFlow>, variables: Variables, skip: Option<string>, t: string)
    ensures t in Matched(flows, variables, skip)
        <==> exists sf :: sf in flows && sf.target == t
               && (Taken(sf, variables) || (sf.condition.None? && Some(t) != skip))
  {
    if flows != [] {
      assert flows == [flows[0]] + flows[1..];
      MatchedIff(flows[1..], variables, skip, t);
    }
  }

  /** A complex gateway without a default routes every token as an inclusive gateway does. */
  lemma ComplexWithoutDefaultIsInclusive(d: ProcessDefinition, id: string, token: Token, nextId: Uuid)
    ensures ComplexRoute(d, id, token, None, nextId) == InclusiveRoute(d, id, token, nextId)
  {}

  ghost predicate Unconditional(flows: seq<SequenceFlow>) {
    forall sf <- flows :: sf.condition.None?
  }

  lemma {:induction false} MatchedUnconditional(flows: seq<SequenceFlow>, variables: Variables)
    requires Unconditional(flows)
    ensures Matched(flows, variables, None) == Targets(flows)
  {
    if flows != [] {
      assert flows[0] in flows;
      MatchedUnconditional(flows[1..], variables);
    }
  }

  /** On unconditional flows the parallel gateway routes as the inclusive one does, except that
      without any outgoing flow it forks into nothing where the inclusive gateway reports an error. */
  lemma ParallelIsInclusiveWhenUnconditional(d: ProcessDefinition, id: string, token: Token, nextId: Uuid)
    requires Unconditional(d.NextNodes(id))
    ensures ParallelRoute(d, id, token, nextId) == InclusiveRoute(d, id, token, nextId)
        <==> Joins(d, id, token) || d.NextNodes(id) != []
  {
    MatchedUnconditional(d.NextNodes(id), token.variables);
    TargetsAt(d.NextNodes(id));
  }

  /** In a valid definition the two agree at every gateway with unconditional flows. */
  lemma ParallelIsInclusiveInValidDefinition(d: ProcessDefinition, id: string, token: Token, nextId: Uuid)
    requires Valid(d) && id in d.nodes && d.nodes[id].IsGateway() && Unconditional(d.NextNodes(id))
    ensures ParallelRoute(d, id, token, nextId) == InclusiveRoute(d, id, token, nextId)
  {
    hide ParallelRoute, InclusiveRoute, Joins, GatewaysBranch, EventGatewaysCatch, BoundariesAttached;
    hide TargetsExist, OneStart, SomeEnd;
    ParallelIsInclusiveWhenUnconditional(d, id, token, nextId);
    assert Outgoing(d, id) >= 1;
  }

  /** The flow an exclusive gateway takes by condition is among those an inclusive gateway takes. */
  lemma {:induction false} ExclusiveMatchIsInclusive(flows: seq<SequenceFlow>, variables: Variables)
    ensures FirstMatch(flows, variables).Some? ==> FirstMatch(flows, variables).value in Matched(flows, variables, None)
    ensures FirstMatch(flows, variables).None? <==> forall sf <- flows :: !Taken(sf, variables)
  {
    if flows != [] {
      assert flows == [flows[0]] + flows[1..];
      ExclusiveMatchIsInclusive(flows[1..], variables);
    }
  }

  ghost predicate OnNodes(r: Result<NextAction>, d: ProcessDefinition) {
    match r
    case Err(_) => true
    case Ok(Continue(t)) => t.currentNode in d.nodes
    case Ok(ContinueMultiple(ts)) => forall t <- ts :: t.currentNode in d.nodes
    case Ok(WaitForJoin(g, t)) => g in d.nodes
  }

  lemma SplitStays(targets: seq<string>, token: Token, nextId: Uuid, d: ProcessDefinition)
    requires forall t <- targets :: t in d.nodes
    ensures OnNodes(Ok(Split(targets, token, nextId)), d)
  {}

  lemma MatchedStays(d: ProcessDefinition, id: string, variables: Variables, skip: Option<string>)
    requires TargetsExist(d)
    ensures forall t <- Matched(d.NextNodes(id), variables, skip) :: t in d.nodes
  {
    forall t | t in Matched(d.NextNodes(id), variables, skip) ensures t in d.nodes {
      MatchedIff(d.NextNodes(id), variables, skip, t);
    }
  }

  /** Whatever a forking gateway of a valid definition sends on sits on an existing node, provided its
      default does. */
  lemma ForksStayInDefinition(d: ProcessDefinition, id: string, token: Token, default: Option<string>, nextId: Uuid)
    requires Valid(d) && id in d.nodes
    requires default.Some? ==> default.value in d.nodes
    ensures OnNodes(ParallelRoute(d, id, token, nextId), d)
    ensures OnNodes(ComplexRoute(d, id, token, default, nextId), d)
  {
    hide Joins, Forked, NoDeadEnds, GatewaysBranch, EventGatewaysCatch, BoundariesAttached, OneStart, SomeEnd;
    TargetsAt(d.NextNodes(id));
    SplitStays(Targets(d.NextNodes(id)), token, nextId, d);
    MatchedStays(d, id, token.variables, default);
    var m := Matched(d.NextNodes(id), token.variables, default);
    if m != [] || default.Some? {
      SplitStays(if m == [] then [default.value] else m, token, nextId, d);
    }
  }

  /** So does whatever an inclusive or exclusive gateway sends on. */
  lemma ChoicesStayInDefinition(d: ProcessDefinition, id: string, token: Token, default: Option<string>, nextId: Uuid)
    requires Valid(d) && id in d.nodes
    requires default.Some? ==> default.value in d.nodes
    ensures OnNodes(InclusiveRoute(d, id, token, nextId), d)
    ensures OnNodes(ExclusiveRoute(d, id, token, default), d)
  {
    MatchedStays(d, id, token.variables, None);
    SplitStays(Matched(d.NextNodes(id), token.variables, None), token, nextId, d);
    ExclusiveMatchIsInclusive(d.NextNodes(id), token.variables);
  }

  /** When no condition holds, the exclusive gateway leaves the definition exactly when its default
      names no node: a raw flow id left in `default` has this effect. */
  lemma DefaultDecidesWhereExclusiveGoes(d: ProcessDefinition, id: string, token: Token, target: string)
    requires Valid(d) && id in d.nodes
    requires FirstMatch(d.NextNodes(id), token.variables).None?
    ensures OnNodes(ExclusiveRoute(d, id, token, Some(target)), d) <==> target in d.nodes
  {}

  /** Two flows guarded by `name < bound` and `name >= bound`, and no default: the gateway routes every
      token whose variable is a number, and fails on every other token; a number a double holds goes to
      its side of the bound. */
  lemma TwoWayGuardRoutesNumbers(d: ProcessDefinition, id: string, token: Token, name: string, bound: int, low: string,
      high: string)
    requires name != "" && Text.Tight(name) && OperatorFree(name)
    requires Printable(IntLit(bound))
    requires d.NextNodes(id) ==
      [SequenceFlow(low, Some(Comparison(name, Lt, Print(IntLit(bound))))),
       SequenceFlow(high, Some(Comparison(name, Ge, Print(IntLit(bound)))))]
    ensures ExclusiveRoute(d, id, token, None).Ok? <==> name in token.variables && token.variables[name].Num?
    ensures name in token.variables && token.variables[name].Num? && IsExact(token.variables[name].num) ==>
      ExclusiveTarget(d, id, token, None)
        == Some(if token.variables[name].num.AsReal() < bound as real then low else high)
  {
    var lit, vars := IntLit(bound), token.variables;
    NumeralIsOperatorFree(bound);
    ConditionsMeanWhatTheyPrint(name, Lt, lit, vars);
    ConditionsMeanWhatTheyPrint(name, Ge, lit, vars);
    var flows := d.NextNodes(id);
    assert flows[1..] == [flows[1]];
    assert FirstMatch(flows[1..], vars) == if Taken(flows[1], vars) then Some(high) else None;
  }

  lemma NumeralIsOperatorFree(i: int)
    ensures OperatorFree(Print(IntLit(i)))
  {
    var s := Print(IntLit(i));
    assert forall k :: 0 <= k < |s| ==> Text.IsDigit(s[k]) || s[k] == '-';
    forall op: Operator, k: int ensures !Text.OccursAt(s, k, op.Symbol()) {
      assert op.Symbol()[0] != '-' && !Text.IsDigit(op.Symbol()[0]);
    }
  }

  // ---- Where each gateway sends a token ----

  ghost predicate FirstTaken(flows: seq<SequenceFlow>, variables: Variables, k: nat) {
    && k < |flows| && flows[k].condition.Some? && EvaluateCondition(flows[k].condition.value, variables)
    && forall j :: 0 <= j < k ==> flows[j].condition.Some? ==> !EvaluateCondition(flows[j].condition.value, variables)
  }

  lemma {:induction false} FirstMatchIsFirst(flows: seq<SequenceFlow>, variables: Variables, k: nat)
    requires FirstTaken(flows, variables, k)
    ensures FirstMatch(flows, variables) == Some(flows[k].target)
    decreases |flows|
  {
    if k > 0 {
      assert FirstTaken(flows[1..], variables, k - 1);
      FirstMatchIsFirst(flows[1..], variables, k - 1);
    }
  }

  lemma {:induction false} NoMatch(flows: seq<SequenceFlow>, variables: Variables)
    requires forall sf <- flows :: sf.condition.Some? ==> !EvaluateCondition(sf.condition.value, variables)
    ensures FirstMatch(flows, variables).None?
    decreases |flows|
  {
    if flows != [] {
      assert flows[0] in flows && forall sf <- flows[1..] :: sf in flows;
      NoMatch(flows[1..], variables);
    }
  }

  /** An exclusive gateway takes the first flow whose condition holds; without one it takes the default,
      and without a default it fails. */
  lemma ExclusiveTakesFirst(d: ProcessDefinition, id: string, token: Token, default: Option<string>)
    ensures forall k: nat :: FirstTaken(d.NextNodes(id), token.variables, k) ==>
      ExclusiveRoute(d, id, token, default) == Ok(Continue(token.(currentNode := d.NextNodes(id)[k].target)))
    ensures (forall sf <- d.NextNodes(id) :: sf.condition.Some? ==>
      !EvaluateCondition(sf.condition.value, token.variables)) ==>
      ExclusiveRoute(d, id, token, default)
        == if default.Some? then Ok(Continue(token.(currentNode := default.value))) else Err(NoMatchingCondition(id))
  {
    forall k: nat | FirstTaken(d.NextNodes(id), token.variables, k)
      ensures ExclusiveRoute(d, id, token, default) == Ok(Continue(token.(currentNode := d.NextNodes(id)[k].target)))
    {
      FirstMatchIsFirst(d.NextNodes(id), token.variables, k);
    }
    if forall sf <- d.NextNodes(id) :: sf.condition.Some? ==> !EvaluateCondition(sf.condition.value, token.variables) {
      NoMatch(d.NextNodes(id), token.variables);
    }
  }

  /** Inclusive routing keeps the flows in their order: an unconditional flow, or one whose condition holds,
      unless it is an unconditional one to the default target, which is left out. */
  lemma {:induction false} MatchedInOrder(before: seq<SequenceFlow>, sf: SequenceFlow, variables: Variables,
      skip: Option<string>)
    ensures Matched(before + [sf], variables, skip) == Matched(before, variables, skip)
      + if (sf.condition.None? && Some(sf.target) != skip)
           || (sf.condition.Some? && EvaluateCondition(sf.condition.value, variables)) then [sf.target] else []
    ensures Matched([], variables, skip) == []
    decreases |before|
  {
    if before == [] {
      assert [] + [sf] == [sf] && [sf][1..] == [];
      assert Matched([sf], variables, skip) == (if Keeps(sf, variables, skip) then [sf.target] else []) + [];
    } else {
      assert (before + [sf])[1..] == before[1..] + [sf];
      MatchedInOrder(before[1..], sf, variables, skip);
    }
  }

  /** A token for each target: the token itself when there is one target, fresh ones with its variables
      otherwise. */
  ghost predicate SentTo(r: Result<NextAction>, token: Token, targets: seq<string>, nextId: Uuid) {
    && (|targets| == 1 ==> r == Ok(Continue(Token(token.id, targets[0], token.variables, false))))
    && (|targets| != 1 ==>
          && r.Ok? && r.value.ContinueMultiple? && |r.value.tokens| == |targets|
          && forall k :: 0 <= k < |targets| ==>
               r.value.tokens[k] == Token(nextId + k, targets[k], token.variables, false))
  }

  /** Parallel, inclusive and complex gateways wait when two flows or more lead to them, unless the token
      comes out of a join; then the parallel one sends a token over every flow, and the others over every
      flow they keep. Without such a flow the inclusive gateway fails, and the complex one takes its default. */
  lemma GatewaysSend(d: ProcessDefinition, id: string, token: Token, default: Option<string>, nextId: Uuid)
    ensures var flows := d.NextNodes(id);
      var kept, complex := Matched(flows, token.variables, None), Matched(flows, token.variables, default);
      if Incoming(d.flows, id) >= 2 && !token.isMerged
      then
        && ParallelRoute(d, id, token, nextId) == Ok(WaitForJoin(id, token))
        && InclusiveRoute(d, id, token, nextId) == Ok(WaitForJoin(id, token))
        && ComplexRoute(d, id, token, default, nextId) == Ok(WaitForJoin(id, token))
      else
        && SentTo(ParallelRoute(d, id, token, nextId), token,
           seq(|flows|, k requires 0 <= k < |flows| => flows[k].target), nextId)
        && (if kept == [] then InclusiveRoute(d, id, token, nextId) == Err(NoMatchingCondition(id))
            else SentTo(InclusiveRoute(d, id, token, nextId), token, kept, nextId))
        && (if complex == [] && default.None?
           then ComplexRoute(d, id, token, default, nextId) == Err(NoMatchingCondition(id))
            else SentTo(ComplexRoute(d, id, token, default, nextId), token,
                        if complex == [] then [default.value] else complex, nextId))
  {
    var flows := d.NextNodes(id);
    TargetsAt(flows);
    assert Targets(flows) == seq(|flows|, k requires 0 <= k < |flows| => flows[k].target);
    hide Matched, Targets, Incoming;
  }
}
