/** The built graph position by position: every node and every flow with the ids, lanes and conditions they have. */
module FlowPlan {
  import opened Wrappers
  import opened FlowGraph

  /** The gateway stands behind step `g`. */
  predicate GatewayBehind(o: Options, g: int) {
    0 <= g < |o.steps| && (o.gateway == Some(Outcome(g))
      || (o.gateway.Some? && o.gateway.value.Amount? && o.gateway.value.afterStep == g))
  }

  /** There is none, or it names no step. */
  predicate NoGateway(o: Options) {
    o.gateway.None? || !(0 <= o.gateway.value.afterStep < |o.steps|)
  }

  function LaneOf(s: Step): string { if s.lane == None then "" else s.lane.value }

  /** Start, the steps with the gateway behind its own, the script and the end: `n` steps are placed. */
  ghost predicate Placed(o: Options, nodes: seq<Node>, n: nat, g: int) {
    && n <= |o.steps| && |nodes| >= 1 + n + (if 0 <= g < n then 1 else 0)
    && nodes[0] == Node("StartEvent_1", StartEvent, "")
    && (forall i | 0 <= i < n ::
          nodes[if 0 <= g < i then i + 2 else i + 1] == Node(o.steps[i].id, UserTask, LaneOf(o.steps[i])))
    && (0 <= g < n ==> nodes[g + 2] == Node("Gateway_decision", ExclusiveGateway, LaneOf(o.steps[g])))
  }

  lemma {:induction false} ChainIsPlaced(o: Options, n: nat, g: int)
    requires n <= |o.steps| && if g == -1 then NoGateway(o) else GatewayBehind(o, g)
    ensures |Chain(o, n)| == 1 + n + if 0 <= g < n then 1 else 0
    ensures Placed(o, Chain(o, n), n, g)
  {
    if n > 0 { ChainIsPlaced(o, n - 1, g); }
  }

  /** All nodes, and there are no others. */
  lemma NodesInOrder(o: Options, g: int)
    requires if g == -1 then NoGateway(o) else GatewayBehind(o, g)
    ensures var n, nodes := |o.steps|, AllNodes(o);
            var m := 1 + n + (if g == -1 then 0 else 1) + (if o.failingScript then 1 else 0);
            var lane := if n == 0 then "" else LaneOf(o.steps[n - 1]);
            && Placed(o, nodes, n, g) && |nodes| == m + (if g == -1 then 1 else 2)
            && (o.failingScript ==> nodes[m - 1] == Node("Activity_fail", ScriptTask, lane))
            && nodes[m] == Node("EndEvent_1", EndEvent, lane)
            && (g != -1 ==> nodes[m + 1] == Node("EndEvent_other", EndEvent, lane))
  {
    hide Chain;
    ChainIsPlaced(o, |o.steps|, g);
  }

  /** One flow from each node to the next; the gateway's is the second of two, after the one to the other end. */
  ghost predicate Linked(o: Options, chain: seq<Node>, flows: seq<Flow>, p: int) {
    && |flows| == (if chain == [] then 0 else |chain| - 1) + (if 0 <= p < |chain| - 1 then 1 else 0)
    && (forall k | 0 <= k < |chain| - 1 && (p < 0 || k < p) :: flows[k] == Flow(chain[k].id, chain[k + 1].id, None))
    && (forall k | 0 <= p < k < |chain| - 1 :: flows[k + 1] == Flow(chain[k].id, chain[k + 1].id, None))
    && (0 <= p < |chain| - 1 ==>
          o.gateway.Some? &&
          match o.gateway.value
          case Outcome(_) =>
            && flows[p] == Flow(chain[p].id, "EndEvent_other", Some(OutcomeIs("reject")))
            && flows[p + 1] == Flow(chain[p].id, chain[p + 1].id, Some(OutcomeIs("approve")))
          case Amount(_, field, threshold) =>
            && flows[p] == Flow(chain[p].id, "EndEvent_other", Some(AtMost(field, threshold)))
            && flows[p + 1] == Flow(chain[p].id, chain[p + 1].id, Some(MoreThan(field, threshold))))
  }

  lemma LinkedOneMore(o: Options, chain: seq<Node>, flows: seq<Flow>, p: int, n: Node)
    requires Linked(o, chain, flows, p) && chain != []
    requires (chain[|chain| - 1].tag == ExclusiveGateway <==> |chain| - 1 == p) && (p >= 0 ==> o.gateway.Some?)
    ensures Linked(o, chain + [n], flows + Link(o, chain[|chain| - 1], n), p)
  {
  }

  lemma NothingLinked(o: Options, chain: seq<Node>, p: int)
    requires |chain| < 2
    ensures Linked(o, chain, [], p)
  {
  }

  lemma {:induction false} LinksAreLinked(o: Options, chain: seq<Node>, p: int)
    requires forall k | 0 <= k < |chain| :: chain[k].tag == ExclusiveGateway <==> k == p
    requires p >= 0 ==> o.gateway.Some?
    ensures Linked(o, chain, Links(o, chain), p)
  {
    hide Linked, Link;
    if |chain| < 2 {
      NothingLinked(o, chain, p);
    } else {
      var n := |chain| - 1;
      LinksAreLinked(o, chain[..n], p);
      LinkedOneMore(o, chain[..n], Links(o, chain[..n]), p, chain[n]);
      assert chain[..n] + [chain[n]] == chain;
    }
  }

  /** All flows, in the order they were connected. */
  lemma FlowsInOrder(o: Options, g: int)
    requires if g == -1 then NoGateway(o) else GatewayBehind(o, g)
    ensures var m := |AllNodes(o)| - (if g == -1 then 0 else 1);
            m > 0 && Linked(o, AllNodes(o)[..m], AllFlows(o), if g == -1 then -1 else g + 2)
  {
    hide Chain, Links, Linked, Placed;
    var chain, p := FullChain(o), if g == -1 then -1 else g + 2;
    NodesInOrder(o, g);
    assert AllNodes(o)[..|chain|] == chain;
    forall k | 0 <= k < |chain| ensures chain[k].tag == ExclusiveGateway <==> k == p { OnlyOneGateway(o, g, k); }
    LinksAreLinked(o, chain, p);
  }

  lemma OnlyOneGateway(o: Options, g: int, k: nat)
    requires (if g == -1 then NoGateway(o) else GatewayBehind(o, g)) && k < |FullChain(o)|
    ensures FullChain(o)[k].tag == ExclusiveGateway <==> g != -1 && k == g + 2
  {
    hide Chain;
    var n := |o.steps|;
    ChainIsPlaced(o, n, g);
    var chain := Chain(o, n);
    if k < |chain| {
      assert FullChain(o)[k] == chain[k];
      var i := if 0 <= g && k > g + 2 then k - 2 else k - 1;
      if k > 0 && (g == -1 || k != g + 2) { assert chain[k] == Node(o.steps[i].id, UserTask, LaneOf(o.steps[i])); }
    }
  }

  // ------------------------------------------------------------------ the lists

  /** A node's lists are in the order of the flows. */
  lemma {:induction false} ListsAscend(flows: seq<Flow>, id: string)
    ensures forall i, j | 0 <= i < j < |Into(flows, id)| :: Into(flows, id)[i] < Into(flows, id)[j]
    ensures forall i, j | 0 <= i < j < |OutOf(flows, id)| :: OutOf(flows, id)[i] < OutOf(flows, id)[j]
  {
    if flows != [] {
      var before := flows[..|flows| - 1];
      ListsAscend(before, id);
      forall i | 0 <= i < |Into(before, id)| ensures Into(before, id)[i] < |flows| {
        ListedExactlyAtItsEnds(before, id, Into(before, id)[i]);
      }
      forall i | 0 <= i < |OutOf(before, id)| ensures OutOf(before, id)[i] < |flows| {
        ListedExactlyAtItsEnds(before, id, OutOf(before, id)[i]);
      }
    }
  }

  /** A lane lists its nodes in the order they were added: its list grows at the end, by its own nodes only. */
  lemma LaneGrows(nodes: seq<Node>, n: Node, lane: string)
    ensures IdsIn([], lane) == []
    ensures IdsIn(nodes + [n], lane) == IdsIn(nodes, lane) + if n.lane == lane then [n.id] else []
  {
    assert (nodes + [n])[..|nodes|] == nodes;
  }
}
