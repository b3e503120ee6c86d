/**
 The BPMN builder: nodes and flows pushed in order, incoming and outgoing lists filled as flows appear,
 and a pending condition that the next flow takes.
*/
module FlowGraph {
  import opened Wrappers

  datatype Step = Step(id: string, lane: Option<string>)

  datatype Gateway = Outcome(afterStep: int) | Amount(afterStep: int, field: string, threshold: int)

  datatype Options = Options(steps: seq<Step>, gateway: Option<Gateway>, failingScript: bool)

  datatype Condition =
    | OutcomeIs(value: string)
    | AtMost(field: string, threshold: int)
    | MoreThan(field: string, threshold: int)

  datatype Tag = StartEvent | UserTask | ExclusiveGateway | ScriptTask | EndEvent

  datatype Node = Node(id: string, tag: Tag, lane: string)

  datatype Flow = Flow(source: string, target: string, condition: Option<Condition>)

  const START := "StartEvent_1"
  const DECISION := "Gateway_decision"
  const FAIL := "Activity_fail"
  const END := "EndEvent_1"
  const END_OTHER := "EndEvent_other"
  const RESERVED: set<string> := {START, DECISION, FAIL, END, END_OTHER}

  /** Step ids are distinct and none is one of the builder's own. */
  predicate Proper(o: Options) {
    && (forall i | 0 <= i < |o.steps| :: o.steps[i].id !in RESERVED)
    && forall i, j | 0 <= i < |o.steps| && 0 <= j < |o.steps| && o.steps[i].id == o.steps[j].id :: i == j
  }

  lemma ReservedAreDistinct()
    ensures |START| == 12 && |DECISION| == 16 && |FAIL| == 13 && |END| == 10 && |END_OTHER| == 14
  {
  }

  function LaneName(lane: Option<string>): string { if lane.Some? then lane.value else "" }

  predicate HasGateway(o: Options, i: int) { o.gateway.Some? && o.gateway.value.afterStep == i && 0 <= i < |o.steps| }

  /** The branch that ends, and the one that goes on. */
  function Rejecting(g: Gateway): Condition { if g.Outcome? then OutcomeIs("reject") else AtMost(g.field, g.threshold) }
  function Accepting(g: Gateway): Condition {
    if g.Outcome? then OutcomeIs("approve") else MoreThan(g.field, g.threshold)
  }

  // ------------------------------------------------------------------ the graph it should build

  /** The nodes one after the other: start, the first `n` steps with the gateway after its own. */
  function Chain(o: Options, n: nat): (nodes: seq<Node>)
    requires n <= |o.steps|
    ensures |nodes| > 0
  {
    if n == 0 then [Node(START, StartEvent, "")]
    else
      var lane := LaneName(o.steps[n - 1].lane);
      Chain(o, n - 1) + [Node(o.steps[n - 1].id, UserTask, lane)]
      + if HasGateway(o, n - 1) then [Node(DECISION, ExclusiveGateway, lane)] else []
  }

  function LastLane(o: Options): string { if o.steps == [] then "" else LaneName(o.steps[|o.steps| - 1].lane) }

  /** Then the failing script, if any, and the end. */
  function FullChain(o: Options): (nodes: seq<Node>) {
    Chain(o, |o.steps|)
    + (if o.failingScript then [Node(FAIL, ScriptTask, LastLane(o))] else [])
    + [Node(END, EndEvent, LastLane(o))]
  }

  predicate Decides(o: Options) { o.gateway.Some? && 0 <= o.gateway.value.afterStep < |o.steps| }

  function AllNodes(o: Options): seq<Node> {
    FullChain(o) + if Decides(o) then [Node(END_OTHER, EndEvent, LastLane(o))] else []
  }

  /** From a node to its successor: one flow, or the two conditional ones of the gateway. */
  function Link(o: Options, a: Node, b: Node): seq<Flow> {
    if a.tag == ExclusiveGateway && o.gateway.Some?
    then [Flow(a.id, END_OTHER, Some(Rejecting(o.gateway.value))), Flow(a.id, b.id, Some(Accepting(o.gateway.value)))]
    else [Flow(a.id, b.id, None)]
  }

  function Links(o: Options, chain: seq<Node>): seq<Flow> {
    if |chain| < 2 then []
    else Links(o, chain[..|chain| - 1]) + Link(o, chain[|chain| - 2], chain[|chain| - 1])
  }

  function AllFlows(o: Options): seq<Flow> { Links(o, FullChain(o)) }

  // ------------------------------------------------------------------ incoming and outgoing

  /** The numbers of the flows into, and out of, a node, in order. */
  function Into(flows: seq<Flow>, id: string): seq<nat> {
    if flows == [] then []
    else Into(flows[..|flows| - 1], id) + if flows[|flows| - 1].target == id then [|flows|] else []
  }

  function OutOf(flows: seq<Flow>, id: string): seq<nat> {
    if flows == [] then []
    else OutOf(flows[..|flows| - 1], id) + if flows[|flows| - 1].source == id then [|flows|] else []
  }

  function Get(m: map<string, seq<nat>>, id: string): seq<nat> { if id in m then m[id] else [] }

  ghost predicate Wired(flows: seq<Flow>, incoming: map<string, seq<nat>>, outgoing: map<string, seq<nat>>) {
    forall id :: Get(incoming, id) == Into(flows, id) && Get(outgoing, id) == OutOf(flows, id)
  }

  /** A number is listed exactly at the two ends of its flow. */
  lemma {:induction false} ListedExactlyAtItsEnds(flows: seq<Flow>, id: string, n: nat)
    ensures n in Into(flows, id) <==> 1 <= n <= |flows| && flows[n - 1].target == id
    ensures n in OutOf(flows, id) <==> 1 <= n <= |flows| && flows[n - 1].source == id
  {
    if flows != [] { ListedExactlyAtItsEnds(flows[..|flows| - 1], id, n); }
  }

  lemma PushFlow(flows: seq<Flow>, f: Flow, id: string)
    ensures Into(flows + [f], id) == Into(flows, id) + if f.target == id then [|flows| + 1] else []
    ensures OutOf(flows + [f], id) == OutOf(flows, id) + if f.source == id then [|flows| + 1] else []
  {
    assert (flows + [f])[..|flows|] == flows;
  }

  lemma WireOneMore(flows: seq<Flow>, incoming: map<string, seq<nat>>, outgoing: map<string, seq<nat>>, f: Flow)
    requires Wired(flows, incoming, outgoing)
    ensures Wired(flows + [f], incoming[f.target := Get(incoming, f.target) + [|flows| + 1]],
                  outgoing[f.source := Get(outgoing, f.source) + [|flows| + 1]])
  {
    hide Into, OutOf;
    var incoming' := incoming[f.target := Get(incoming, f.target) + [|flows| + 1]];
    var outgoing' := outgoing[f.source := Get(outgoing, f.source) + [|flows| + 1]];
    forall id ensures Get(incoming', id) == Into(flows + [f], id) && Get(outgoing', id) == OutOf(flows + [f], id) {
      PushFlow(flows, f, id);
      assert Get(incoming, id) == Into(flows, id);
    }
  }

  // ------------------------------------------------------------------ lanes

  function IdsIn(nodes: seq<Node>, lane: string): seq<string> {
    if nodes == [] then []
    else IdsIn(nodes[..|nodes| - 1], lane) + if nodes[|nodes| - 1].lane == lane then [nodes[|nodes| - 1].id] else []
  }

  /** Each lane lists its own nodes in order, and there is no empty lane. */
  ghost predicate Laned(nodes: seq<Node>, lanes: map<string, seq<string>>) {
    && (forall lane | lane in lanes :: lanes[lane] == IdsIn(nodes, lane))
    && forall lane :: lane in lanes <==> exists i :: 0 <= i < |nodes| && nodes[i].lane == lane
  }

  lemma {:induction false} InItsLaneOnly(nodes: seq<Node>, i: nat, lane: string)
    requires i < |nodes| && forall j, k | 0 <= j < |nodes| && 0 <= k < |nodes| && nodes[j].id == nodes[k].id :: j == k
    ensures nodes[i].id in IdsIn(nodes, lane) <==> nodes[i].lane == lane
  {
    var n := |nodes| - 1;
    if i < n { InItsLaneOnly(nodes[..n], i, lane); } else { OnlyFromNodes(nodes[..n], lane); }
  }

  lemma {:induction false} OnlyFromNodes(nodes: seq<Node>, lane: string)
    ensures forall id | id in IdsIn(nodes, lane) :: exists j :: 0 <= j < |nodes| && nodes[j].id == id
  {
    if nodes != [] {
      var n := |nodes| - 1;
      OnlyFromNodes(nodes[..n], lane);
      forall id | id in IdsIn(nodes, lane) ensures exists j :: 0 <= j < |nodes| && nodes[j].id == id {
        if id in IdsIn(nodes[..n], lane) {
          var j :| 0 <= j < n && nodes[..n][j].id == id;
          assert nodes[j].id == id;
        } else {
          assert nodes[n].id == id;
        }
      }
    }
  }

  // ------------------------------------------------------------------ the builder

  class Builder {
    var nodes: seq<Node>
    var flows: seq<Flow>
    var incoming: map<string, seq<nat>>
    var outgoing: map<string, seq<nat>>
    var pending: Option<Condition>

    constructor ()
      ensures nodes == [] && flows == [] && incoming == map[] && outgoing == map[] && pending == None
    {
      nodes, flows, incoming, outgoing, pending := [], [], map[], map[], None;
    }

    method AddNode(n: Node)
      modifies `nodes
      ensures nodes == old(nodes) + [n]
    {
      nodes := nodes + [n];
    }

    method Connect(source: string, target: string)
      requires Wired(flows, incoming, outgoing)
      modifies `flows, `incoming, `outgoing, `pending
      ensures flows == old(flows) + [Flow(source, target, old(pending))] && pending == None
      ensures Wired(flows, incoming, outgoing)
    {
      hide Wired, Get;
      var cond := pending;
      pending := None;
      WireOneMore(flows, incoming, outgoing, Flow(source, target, cond));
      flows := flows + [Flow(source, target, cond)];
      outgoing := outgoing[source := Get(outgoing, source) + [|flows|]];
      incoming := incoming[target := Get(incoming, target) + [|flows|]];
    }

    /** The chain so far is linked; after a gateway its first branch is there and the condition of the second waits. */
    ghost predicate Built(o: Options, chain: seq<Node>)
      reads this
    {
      && Wired(flows, incoming, outgoing) && nodes == chain && chain != []
      && (forall k | 0 <= k < |chain| && chain[k].tag == ExclusiveGateway :: o.gateway.Some?)
      && if chain[|chain| - 1].tag == ExclusiveGateway && o.gateway.Some?
         then flows == Links(o, chain) + [Flow(chain[|chain| - 1].id, END_OTHER, Some(Rejecting(o.gateway.value)))]
              && pending == Some(Accepting(o.gateway.value))
         else flows == Links(o, chain) && pending == None
    }

    method Append(o: Options, ghost chain: seq<Node>, prev: string, n: Node) returns (next: string)
      requires Built(o, chain) && prev == chain[|chain| - 1].id && n.tag != ExclusiveGateway
      modifies this
      ensures Built(o, chain + [n]) && next == n.id
    {
      hide Wired, Links;
      AddNode(n);
      Connect(prev, n.id);
      LinksOneMore(o, chain, n);
      next := n.id;
    }

    method AppendGateway(o: Options, ghost chain: seq<Node>, prev: string, lane: string) returns (next: string)
      requires Built(o, chain) && prev == chain[|chain| - 1].id && o.gateway.Some?
               && chain[|chain| - 1].tag != ExclusiveGateway
      modifies this
      ensures Built(o, chain + [Node(DECISION, ExclusiveGateway, lane)]) && next == DECISION
    {
      hide Wired, Links;
      AddNode(Node(DECISION, ExclusiveGateway, lane));
      Connect(prev, DECISION);
      LinksOneMore(o, chain, Node(DECISION, ExclusiveGateway, lane));
      match o.gateway.value {
        case Outcome(_) =>
          pending := Some(OutcomeIs("reject"));
          Connect(DECISION, END_OTHER);
          pending := Some(OutcomeIs("approve"));
        case Amount(_, field, threshold) =>
          pending := Some(AtMost(field, threshold));
          Connect(DECISION, END_OTHER);
          pending := Some(MoreThan(field, threshold));
      }
      next := DECISION;
    }

    /** One step, and the gateway if it comes after it. */
    method PlaceStep(o: Options, i: nat, prev: string) returns (next: string)
      requires i < |o.steps| && Built(o, Chain(o, i)) && prev == Chain(o, i)[|Chain(o, i)| - 1].id
      modifies this
      ensures Built(o, Chain(o, i + 1)) && next == Chain(o, i + 1)[|Chain(o, i + 1)| - 1].id
    {
      hide Built;
      var step := o.steps[i];
      var task := Node(step.id, UserTask, LaneName(step.lane));
      next := Append(o, Chain(o, i), prev, task);
      if o.gateway.Some? && o.gateway.value.afterStep == i {
        next := AppendGateway(o, Chain(o, i) + [task], next, LaneName(step.lane));
      } else {
        assert Chain(o, i + 1) == Chain(o, i) + [task];
      }
    }

    method Build(o: Options)
      requires nodes == [] && flows == [] && incoming == map[] && outgoing == map[] && pending == None
      modifies this
      ensures nodes == AllNodes(o) && flows == AllFlows(o) && pending == None
      ensures Wired(flows, incoming, outgoing)
    {
      hide Wired, Links, Link;
      AddNode(Node(START, StartEvent, ""));
      NothingWired();
      var prev, lastLane, needOtherEnd := START, "", false;
      for i := 0 to |o.steps|
        invariant Built(o, Chain(o, i)) && prev == Chain(o, i)[|Chain(o, i)| - 1].id
        invariant lastLane == (if i == 0 then "" else LaneName(o.steps[i - 1].lane))
        invariant needOtherEnd <==> o.gateway.Some? && 0 <= o.gateway.value.afterStep < i
      {
        prev := PlaceStep(o, i, prev);
        lastLane := LaneName(o.steps[i].lane);
        if o.gateway.Some? && o.gateway.value.afterStep == i { needOtherEnd := true; }
      }
      Finish(o, prev, lastLane, needOtherEnd);
    }

    method Finish(o: Options, previous: string, lastLane: string, needOtherEnd: bool)
      requires Built(o, Chain(o, |o.steps|)) && previous == Chain(o, |o.steps|)[|Chain(o, |o.steps|)| - 1].id
      requires lastLane == LastLane(o) && (needOtherEnd <==> Decides(o))
      modifies this
      ensures nodes == AllNodes(o) && flows == AllFlows(o) && pending == None
      ensures Wired(flows, incoming, outgoing)
    {
      hide Wired, Links, Link, Chain;
      var prev := previous;
      ghost var chain := Chain(o, |o.steps|);
      if o.failingScript {
        prev := Append(o, chain, prev, Node(FAIL, ScriptTask, lastLane));
        chain := chain + [Node(FAIL, ScriptTask, lastLane)];
      }
      prev := Append(o, chain, prev, Node(END, EndEvent, lastLane));
      assert chain + [Node(END, EndEvent, lastLane)] == FullChain(o);
      if needOtherEnd { AddNode(Node(END_OTHER, EndEvent, lastLane)); }
    }

    method Lanes() returns (lanes: map<string, seq<string>>)
      ensures Laned(nodes, lanes)
    {
      lanes := map[];
      for i := 0 to |nodes|
        invariant Laned(nodes[..i], lanes)
      {
        LaneOneMore(nodes[..i], lanes, nodes[i]);
        assert nodes[..i + 1] == nodes[..i] + [nodes[i]];
        lanes := lanes[nodes[i].lane := (if nodes[i].lane in lanes then lanes[nodes[i].lane] else []) + [nodes[i].id]];
      }
      assert nodes[..|nodes|] == nodes;
    }
  }

  lemma NothingWired()
    ensures Wired([], map[], map[]) && forall o, n: Node :: Links(o, [n]) == []
  {
  }

  lemma LinksOneMore(o: Options, chain: seq<Node>, n: Node)
    requires chain != []
    ensures Links(o, chain + [n]) == Links(o, chain) + Link(o, chain[|chain| - 1], n)
  {
    assert (chain + [n])[..|chain|] == chain;
  }

  lemma {:induction false} AbsentLaneIsEmpty(nodes: seq<Node>, lane: string)
    requires forall i | 0 <= i < |nodes| :: nodes[i].lane != lane
    ensures IdsIn(nodes, lane) == []
  {
    if nodes != [] { AbsentLaneIsEmpty(nodes[..|nodes| - 1], lane); }
  }

  lemma LaneOneMore(nodes: seq<Node>, lanes: map<string, seq<string>>, n: Node)
    requires Laned(nodes, lanes)
    ensures Laned(nodes + [n], lanes[n.lane := (if n.lane in lanes then lanes[n.lane] else []) + [n.id]])
  {
    var more := nodes + [n];
    assert more[..|nodes|] == nodes;
    if n.lane !in lanes { AbsentLaneIsEmpty(nodes, n.lane); }
    forall lane ensures (exists i :: 0 <= i < |more| && more[i].lane == lane) <==> lane in lanes || lane == n.lane {
      if lane in lanes {
        var i :| 0 <= i < |nodes| && nodes[i].lane == lane;
        assert more[i].lane == lane;
      }
      if lane == n.lane { assert more[|nodes|].lane == lane; }
    }
  }

  // ------------------------------------------------------------------ the graph is well-formed

  /** Where a node of the chain comes from. */
  ghost predicate Known(o: Options, n: nat, node: Node)
    requires n <= |o.steps|
  {
    || (node.id == START && node.tag == StartEvent)
    || (node.id == DECISION && node.tag == ExclusiveGateway && o.gateway.Some? && 0 <= o.gateway.value.afterStep < n)
    || (node.tag == UserTask && exists j :: 0 <= j < n && o.steps[j].id == node.id)
  }

  lemma KnownLater(o: Options, n: nat, node: Node)
    requires n < |o.steps| && Known(o, n, node)
    ensures Known(o, n + 1, node)
  {
  }

  lemma {:induction false} ChainIsKnown(o: Options, n: nat)
    requires n <= |o.steps|
    ensures forall k | 0 <= k < |Chain(o, n)| :: Known(o, n, Chain(o, n)[k])
    ensures forall k | 0 < k < |Chain(o, n)| :: Chain(o, n)[k].tag != StartEvent
    ensures Chain(o, n)[0] == Node(START, StartEvent, "")
  {
    if n > 0 {
      ChainIsKnown(o, n - 1);
      var before, chain := Chain(o, n - 1), Chain(o, n);
      forall k | 0 <= k < |chain| ensures Known(o, n, chain[k]) {
        if k < |before| {
          assert chain[k] == before[k];
          KnownLater(o, n - 1, before[k]);
        } else if k == |before| {
          assert o.steps[n - 1].id == chain[k].id;
        }
      }
    }
  }

  predicate Distinct(nodes: seq<Node>) {
    forall j, k | 0 <= j < |nodes| && 0 <= k < |nodes| && nodes[j].id == nodes[k].id :: j == k
  }

  lemma DistinctOneMore(nodes: seq<Node>, n: Node)
    requires Distinct(nodes) && forall k | 0 <= k < |nodes| :: nodes[k].id != n.id
    ensures Distinct(nodes + [n])
  {
  }

  lemma {:induction false} ChainIsDistinct(o: Options, n: nat)
    requires Proper(o) && n <= |o.steps|
    ensures Distinct(Chain(o, n))
  {
    ReservedAreDistinct();
    if n > 0 {
      var before, step := Chain(o, n - 1), Node(o.steps[n - 1].id, UserTask, LaneName(o.steps[n - 1].lane));
      ChainIsDistinct(o, n - 1);
      ChainIsKnown(o, n - 1);
      forall k | 0 <= k < |before| ensures before[k].id != step.id { assert Known(o, n - 1, before[k]); }
      DistinctOneMore(before, step);
      if HasGateway(o, n - 1) {
        var gateway := Node(DECISION, ExclusiveGateway, step.lane);
        forall k | 0 <= k < |before + [step]| ensures (before + [step])[k].id != DECISION {
          if k < |before| { assert Known(o, n - 1, before[k]); }
        }
        DistinctOneMore(before + [step], gateway);
        assert Chain(o, n) == before + [step] + [gateway];
      } else {
        assert Chain(o, n) == before + [step];
      }
    }
  }

  /** No two nodes of the graph share an id. */
  lemma NodesAreDistinct(o: Options)
    requires Proper(o)
    ensures Distinct(AllNodes(o)) && Distinct(FullChain(o))
  {
    ReservedAreDistinct();
    var chain := Chain(o, |o.steps|);
    ChainIsDistinct(o, |o.steps|);
    ChainIsKnown(o, |o.steps|);
    forall k | 0 <= k < |chain| ensures chain[k].id !in {FAIL, END, END_OTHER} { assert Known(o, |o.steps|, chain[k]); }
    var lane := LastLane(o);
    DistinctOneMore(chain, Node(FAIL, ScriptTask, lane));
    var scripted := if o.failingScript then chain + [Node(FAIL, ScriptTask, lane)] else chain;
    DistinctOneMore(scripted, Node(END, EndEvent, lane));
    assert FullChain(o) == scripted + [Node(END, EndEvent, lane)];
    DistinctOneMore(FullChain(o), Node(END_OTHER, EndEvent, lane));
  }

  /** A flow goes along the chain, or from its gateway to the other end. */
  ghost predicate AlongChain(o: Options, chain: seq<Node>, f: Flow) {
    exists k :: 0 <= k < |chain| - 1 && f in Link(o, chain[k], chain[k + 1])
  }

  lemma {:induction false} LinksRunAlong(o: Options, chain: seq<Node>)
    ensures forall f :: f in Links(o, chain) <==> AlongChain(o, chain, f)
  {
    hide Link;
    if |chain| >= 2 {
      var n := |chain| - 1;
      LinksRunAlong(o, chain[..n]);
      forall f ensures f in Links(o, chain) <==> AlongChain(o, chain, f) {
        if AlongChain(o, chain[..n], f) {
          var k :| 0 <= k < n - 1 && f in Link(o, chain[..n][k], chain[..n][k + 1]);
          assert f in Link(o, chain[k], chain[k + 1]);
        }
        if AlongChain(o, chain, f) {
          var k :| 0 <= k < n && f in Link(o, chain[k], chain[k + 1]);
          if k < n - 1 { assert f in Link(o, chain[..n][k], chain[..n][k + 1]); }
        }
      }
    }
  }

  ghost predicate Edge(flows: seq<Flow>, a: string, b: string) {
    exists f :: f in flows && f.source == a && f.target == b
  }

  ghost predicate Path(flows: seq<Flow>, path: seq<string>) {
    path != [] && path[0] == START && forall i | 0 <= i < |path| - 1 :: Edge(flows, path[i], path[i + 1])
  }

  ghost predicate ReachableFromStart(flows: seq<Flow>, id: string) {
    exists path :: Path(flows, path) && path[|path| - 1] == id
  }

  /** The chain's gateway is where the options say, and nothing else is one. */
  lemma ChainGateway(o: Options, k: nat)
    requires k < |FullChain(o)| && Proper(o)
    ensures FullChain(o)[k].tag == ExclusiveGateway <==> FullChain(o)[k].id == DECISION
    ensures FullChain(o)[k].tag == ExclusiveGateway ==> o.gateway.Some? && Decides(o) && k < |FullChain(o)| - 1
    ensures FullChain(o)[0].id == START
  {
    ReservedAreDistinct();
    ChainIsKnown(o, |o.steps|);
    var chain := Chain(o, |o.steps|);
    if k < |chain| {
      assert FullChain(o)[k] == chain[k];
      assert Known(o, |o.steps|, chain[k]);
    }
  }

  /** There is a gateway in the chain when the options ask for one after a step. */
  lemma {:induction false} GatewayIsThere(o: Options, n: nat)
    requires Decides(o) && o.gateway.value.afterStep < n <= |o.steps|
    ensures exists k :: 0 <= k < |Chain(o, n)| && Chain(o, n)[k].tag == ExclusiveGateway
  {
    if HasGateway(o, n - 1) {
      assert Chain(o, n)[|Chain(o, n)| - 1].tag == ExclusiveGateway;
    } else {
      GatewayIsThere(o, n - 1);
      var k :| 0 <= k < |Chain(o, n - 1)| && Chain(o, n - 1)[k].tag == ExclusiveGateway;
      assert Chain(o, n)[k] == Chain(o, n - 1)[k];
    }
  }

  lemma ChainNodeIsReachable(o: Options, k: nat)
    requires Proper(o) && k < |FullChain(o)|
    ensures Path(AllFlows(o), seq(k + 1, i requires 0 <= i <= k => FullChain(o)[i].id))
  {
    var chain := FullChain(o);
    var path := seq(k + 1, i requires 0 <= i <= k => chain[i].id);
    LinksRunAlong(o, chain);
    ChainGateway(o, 0);
    forall i | 0 <= i < |path| - 1 ensures Edge(AllFlows(o), path[i], path[i + 1]) {
      var link := Link(o, chain[i], chain[i + 1]);
      var f := link[|link| - 1];
      assert f in link && AlongChain(o, chain, f);
    }
  }

  /** Every node can be reached from the start. */
  lemma EveryNodeIsReachable(o: Options, k: nat)
    requires Proper(o) && k < |AllNodes(o)|
    ensures ReachableFromStart(AllFlows(o), AllNodes(o)[k].id)
  {
    hide AllFlows, FullChain;
    var chain := FullChain(o);
    if k < |chain| {
      ChainNodeIsReachable(o, k);
      var path := seq(k + 1, i requires 0 <= i <= k => chain[i].id);
      assert path[|path| - 1] == AllNodes(o)[k].id;
    } else {
      var g := GatewayIndex(o);
      ChainNodeIsReachable(o, g);
      PathExtends(AllFlows(o), seq(g + 1, i requires 0 <= i <= g => chain[i].id), END_OTHER);
    }
  }

  lemma PathExtends(flows: seq<Flow>, path: seq<string>, id: string)
    requires Path(flows, path) && Edge(flows, path[|path| - 1], id)
    ensures ReachableFromStart(flows, id)
  {
    hide Edge;
    var longer := path + [id];
    forall i | 0 <= i < |longer| - 1 ensures Edge(flows, longer[i], longer[i + 1]) {
      if i < |path| - 1 { assert Edge(flows, path[i], path[i + 1]); }
    }
    assert Path(flows, longer) && longer[|longer| - 1] == id;
  }

  lemma GatewayIndex(o: Options) returns (g: nat)
    requires Proper(o) && Decides(o)
    ensures g < |FullChain(o)| - 1 && FullChain(o)[g].tag == ExclusiveGateway && FullChain(o)[g].id == DECISION
    ensures Edge(AllFlows(o), DECISION, END_OTHER)
    ensures Flow(DECISION, END_OTHER, Some(Rejecting(o.gateway.value))) in AllFlows(o)
    ensures Flow(DECISION, FullChain(o)[g + 1].id, Some(Accepting(o.gateway.value))) in AllFlows(o)
  {
    GatewayIsThere(o, |o.steps|);
    g :| 0 <= g < |Chain(o, |o.steps|)| && Chain(o, |o.steps|)[g].tag == ExclusiveGateway;
    var chain := FullChain(o);
    assert chain[g] == Chain(o, |o.steps|)[g];
    ChainGateway(o, g);
    LinksRunAlong(o, chain);
    var link := Link(o, chain[g], chain[g + 1]);
    assert link[0] in link && link[1] in link;
    assert AlongChain(o, chain, link[0]) && AlongChain(o, chain, link[1]);
  }

  /** Both ends of every flow are nodes, and a flow has a condition exactly when it leaves the gateway. */
  lemma FlowsAreBetweenNodes(o: Options, f: Flow)
    requires Proper(o) && f in AllFlows(o)
    ensures exists i, j ::
              && 0 <= i < |AllNodes(o)| && 0 <= j < |AllNodes(o)|
              && AllNodes(o)[i].id == f.source && AllNodes(o)[j].id == f.target
    ensures f.condition.Some? <==> f.source == DECISION
  {
    hide FullChain;
    var chain, all := FullChain(o), AllNodes(o);
    LinksRunAlong(o, chain);
    var k :| 0 <= k < |chain| - 1 && f in Link(o, chain[k], chain[k + 1]);
    ChainGateway(o, k);
    assert all[k].id == f.source;
    if f.target == chain[k + 1].id {
      assert all[k + 1].id == f.target;
    } else {
      assert all[|chain|].id == f.target;
    }
  }

  /** The gateway has exactly the two outgoing flows, one to the other end and one along the chain. */
  lemma GatewayHasTwoFlows(o: Options, f: Flow)
    requires Proper(o) && f in AllFlows(o) && f.source == DECISION
    ensures Decides(o)
    ensures || f == Flow(DECISION, END_OTHER, Some(Rejecting(o.gateway.value)))
            || exists g :: 0 <= g < |FullChain(o)| - 1 && FullChain(o)[g].id == DECISION
                 && f == Flow(DECISION, FullChain(o)[g + 1].id, Some(Accepting(o.gateway.value)))
  {
    hide FullChain;
    var chain := FullChain(o);
    LinksRunAlong(o, chain);
    var k :| 0 <= k < |chain| - 1 && f in Link(o, chain[k], chain[k + 1]);
    ChainGateway(o, k);
  }

  lemma OutOfLink(flows: seq<Flow>, o: Options, a: Node, b: Node, id: string)
    ensures |OutOf(flows + Link(o, a, b), id)| == |OutOf(flows, id)| + if a.id == id then |Link(o, a, b)| else 0
  {
    var link := Link(o, a, b);
    PushFlow(flows, link[0], id);
    if |link| == 2 {
      PushFlow(flows + [link[0]], link[1], id);
      assert flows + [link[0]] + [link[1]] == flows + link;
    } else {
      assert flows + [link[0]] == flows + link;
    }
  }

  /** The flows out of the one node with an id are those of its link. */
  lemma {:induction false} OutCount(o: Options, chain: seq<Node>, id: string, g: int)
    requires forall k | 0 <= k < |chain| && chain[k].id == id :: k == g
    ensures |OutOf(Links(o, chain), id)| ==
            if 0 <= g < |chain| - 1 && chain[g].id == id then |Link(o, chain[g], chain[g + 1])| else 0
  {
    hide Link;
    if |chain| >= 2 {
      var n := |chain| - 1;
      OutCount(o, chain[..n], id, g);
      OutOfLink(Links(o, chain[..n]), o, chain[n - 1], chain[n], id);
    }
  }

  /** Counted in the outgoing lists: two flows leave the gateway, when there is one, and no other node has two. */
  lemma OnlyTheGatewayBranches(o: Options, k: nat)
    requires Proper(o) && k < |FullChain(o)|
    ensures |OutOf(AllFlows(o), FullChain(o)[k].id)| ==
            if k == |FullChain(o)| - 1 then 0 else if FullChain(o)[k].id == DECISION then 2 else 1
  {
    hide FullChain;
    NodesAreDistinct(o);
    ChainGateway(o, k);
    OutCount(o, FullChain(o), FullChain(o)[k].id, k);
  }

  predicate Meets(c: Condition, outcome: string, amount: int) {
    match c
    case OutcomeIs(v) => outcome == v
    case AtMost(_, t) => amount <= t
    case MoreThan(_, t) => amount > t
  }

  /** The two branches never both hold; over an amount one of them always does. */
  lemma BranchesExclude(g: Gateway, outcome: string, amount: int)
    ensures !(Meets(Rejecting(g), outcome, amount) && Meets(Accepting(g), outcome, amount))
    ensures g.Amount? ==> Meets(Rejecting(g), outcome, amount) || Meets(Accepting(g), outcome, amount)
  {
    assert "reject"[0] != "approve"[0];
  }
}
