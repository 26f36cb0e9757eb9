/** The per-location contact graph: `FullGraph` connects every pair of
    agents present at one location, and `Location` guards who may join and
    counts its current visitors. */
module Contact {
  import opened Common

  /** The node attributes `visit_weight` and `visit_weight_mod`. */
  datatype VisitInfo = VisitInfo(weight: Option<int>, modifier: Option<Option<int> -> Option<int>>)

  datatype ContactError = NotInGraph(agent: Id)

  /** Every pair of distinct nodes is joined, in both directions, and only those. */
  ghost predicate Complete(keys: set<Id>, adj: set<(Id, Id)>)
  {
    forall x, y :: (x, y) in adj <==> x in keys && y in keys && x != y
  }

  /** The agent side of a location: the locations it has joined, in order. */
  class Agent {
    const id: Id
    var locations: seq<Location>

    constructor (id: Id)
      ensures this.id == id && locations == []
    {
      this.id := id;
      locations := [];
    }
  }

  class FullGraph {
    /** The agents of the graph with their visit attributes. */
    var nodes: map<Id, VisitInfo>
    /** The edges of the graph, stored in both directions. */
    var adj: set<(Id, Id)>

    ghost predicate Valid()
      reads this
    {
      Complete(nodes.Keys, adj)
    }

    constructor ()
      ensures Valid() && nodes == map[] && adj == {}
    {
      nodes := map[];
      adj := {};
    }

    /** `add_agent`: adds (or re-attributes) the node and joins it to every other node. */
    method AddAgent(a: Id, info: VisitInfo)
      requires Valid()
      modifies this
      ensures Valid()
      ensures nodes == old(nodes)[a := info]
      ensures forall y :: y in nodes && y != a ==> (a, y) in adj && (y, a) in adj
    {
      nodes := nodes[a := info];
      var rest := nodes.Keys;
      while rest != {}
        invariant rest <= nodes.Keys && nodes == old(nodes)[a := info]
        invariant forall x, y :: (x, y) in adj ==> x in nodes && y in nodes && x != y
        invariant forall x, y :: x in nodes && y in nodes && x != y && x != a && y != a ==> (x, y) in adj
        invariant forall y :: y in nodes && y != a && y !in rest ==> (a, y) in adj && (y, a) in adj
        decreases |rest|
      {
        var n :| n in rest;
        if n != a {
          adj := adj + {(a, n), (n, a)};
        }
        rest := rest - {n};
      }
    }

    /** `agents`: the ids of the graph's nodes. */
    function Agents(): (r: set<Id>)
      reads this
      requires Valid()
      ensures forall x :: x in r <==> x in nodes
      ensures forall x, y :: x in r && y in r && x != y <==> (x, y) in adj
    {
      nodes.Keys
    }

    /** `remove_agent`: drops the node and its edges; fails for an agent not in the graph. */
    method RemoveAgent(a: Id) returns (r: Outcome<ContactError>)
      requires Valid()
      modifies this
      ensures Valid()
      ensures a !in old(nodes) ==> r == Fail(NotInGraph(a)) && nodes == old(nodes) && adj == old(adj)
      ensures a in old(nodes) ==> r == Pass && nodes == old(nodes) - {a}
    {
      if a !in nodes {
        return Fail(NotInGraph(a));
      }
      nodes := nodes - {a};
      adj := set e | e in adj && e.0 != a && e.1 != a;
      r := Pass;
    }

    /** `neighbors`: the nodes adjacent to `a`, which in a complete graph
        are all the other agents; fails for an agent not in the graph. */
    function Neighbors(a: Id): (r: Result<set<Id>, ContactError>)
      reads this
      requires Valid()
      ensures r.Err? <==> a !in nodes
      ensures r.Ok? ==> r.value == nodes.Keys - {a}
    {
      if a !in nodes then Err(NotInGraph(a))
      else
        var ns := set y | y in nodes && (a, y) in adj;
        assert ns == nodes.Keys - {a};
        Ok(ns)
    }
  }

  class Location {
    const graph: FullGraph
    var nCurrentVisitors: int
    /** The overridable hooks `can_affiliate` and `can_visit`. */
    const canAffiliate: Id -> bool
    const canVisit: Id -> bool

    ghost predicate Valid()
      reads this, graph
    {
      graph.Valid() && nCurrentVisitors == |graph.nodes|
    }

    /** A location with the given admission hooks and no visitors. */
    constructor (canAffiliate: Id -> bool, canVisit: Id -> bool)
      ensures Valid() && fresh(graph)
      ensures graph.nodes == map[] && nCurrentVisitors == 0
      ensures this.canAffiliate == canAffiliate && this.canVisit == canVisit
    {
      graph := new FullGraph();
      nCurrentVisitors := 0;
      this.canAffiliate := canAffiliate;
      this.canVisit := canVisit;
    }

    /** A location with the default hooks, which admit every agent. */
    constructor Default()
      ensures Valid() && fresh(graph)
      ensures graph.nodes == map[] && nCurrentVisitors == 0
      ensures forall x :: canAffiliate(x) && canVisit(x)
    {
      graph := new FullGraph();
      nCurrentVisitors := 0;
      canAffiliate := _ => true;
      canVisit := _ => true;
    }

    /** `agents`: the agents present at the location. */
    function Agents(): (r: set<Id>)
      reads this, graph
      requires Valid()
      ensures forall x :: x in r <==> x in graph.nodes
      ensures |r| == nCurrentVisitors
    {
      graph.Agents()
    }

    /** `add_agent`: admits the agent when `can_affiliate` allows it and it
        is not yet present, counting it and recording the location on the
        agent once. */
    method AddAgent(agent: Agent, weight: Option<int>, modifier: Option<Option<int> -> Option<int>>)
      requires Valid()
      modifies this, graph, agent
      ensures Valid()
      ensures !canAffiliate(agent.id) || agent.id in old(graph.nodes) ==>
        graph.nodes == old(graph.nodes) && graph.adj == old(graph.adj) &&
        nCurrentVisitors == old(nCurrentVisitors) && agent.locations == old(agent.locations)
      ensures canAffiliate(agent.id) && agent.id !in old(graph.nodes) ==>
        graph.nodes == old(graph.nodes)[agent.id := VisitInfo(weight, modifier)] &&
        nCurrentVisitors == old(nCurrentVisitors) + 1 &&
        agent.locations == if this in old(agent.locations) then old(agent.locations) else old(agent.locations) + [this]
      ensures old(multiset(agent.locations)[this]) <= 1 ==> multiset(agent.locations)[this] <= 1
    {
      if !canAffiliate(agent.id) {
        return;
      }
      if agent.id !in graph.nodes {
        graph.AddAgent(agent.id, VisitInfo(weight, modifier));
        nCurrentVisitors := nCurrentVisitors + 1;
        if this !in agent.locations {
          agent.locations := agent.locations + [this];
        }
      }
    }

    /** `remove_agent`: drops a present agent and uncounts it; fails, with
        the counter unchanged, for an agent not present. */
    method RemoveAgent(agent: Agent) returns (r: Outcome<ContactError>)
      requires Valid()
      modifies this, graph
      ensures Valid()
      ensures agent.id !in old(graph.nodes) ==> r.Fail? && graph.nodes == old(graph.nodes) && nCurrentVisitors == old(nCurrentVisitors)
      ensures agent.id in old(graph.nodes) ==>
        r == Pass && graph.nodes == old(graph.nodes) - {agent.id} && nCurrentVisitors == old(nCurrentVisitors) - 1
    {
      r := graph.RemoveAgent(agent.id);
      if r == Pass {
        nCurrentVisitors := nCurrentVisitors - 1;
      }
    }

    /** `neighbors`: the other agents present at the location. */
    function Neighbors(a: Id): (r: Result<set<Id>, ContactError>)
      reads this, graph
      requires Valid()
      ensures r.Err? <==> a !in graph.nodes
      ensures r.Ok? ==> r.value == graph.nodes.Keys - {a} && |r.value| == nCurrentVisitors - 1
    {
      graph.Neighbors(a)
    }

    /** `edge_weight`: the default contact weight between two agents. */
    function EdgeWeight(a1: Id, a2: Id): (r: int)
      ensures r == 1
    {
      1
    }

    /** `groupby`: the default grouping key, none. */
    function GroupBy(a: Id): (r: Option<Val>)
      ensures r.None?
    {
      None
    }

    /** `visit`: when `can_visit` allows it and the agent has a weight
        modifier, the agent's visit weight becomes the modifier applied to
        it; otherwise nothing changes. Fails for a visiting agent that is
        not present. */
    method Visit(a: Id) returns (r: Outcome<ContactError>)
      requires Valid()
      modifies graph
      ensures Valid() && graph.adj == old(graph.adj)
      ensures !canVisit(a) ==> r == Pass && graph.nodes == old(graph.nodes)
      ensures canVisit(a) && a !in graph.nodes ==> r == Fail(NotInGraph(a)) && graph.nodes == old(graph.nodes)
      ensures canVisit(a) && a in old(graph.nodes) && old(graph.nodes)[a].modifier.None? ==>
        r == Pass && graph.nodes == old(graph.nodes)
      ensures canVisit(a) && a in old(graph.nodes) && old(graph.nodes)[a].modifier.Some? ==>
        r == Pass && graph.nodes.Keys == old(graph.nodes).Keys &&
        graph.nodes[a].weight == old(graph.nodes)[a].modifier.value(old(graph.nodes)[a].weight) &&
        graph.nodes[a].modifier == old(graph.nodes)[a].modifier &&
        forall y | y in graph.nodes && y != a :: graph.nodes[y] == old(graph.nodes)[y]
    {
      if !canVisit(a) {
        return Pass;
      }
      if a !in graph.nodes {
        return Fail(NotInGraph(a));
      }
      var info := graph.nodes[a];
      if info.modifier.Some? {
        graph.nodes := graph.nodes[a := info.(weight := info.modifier.value(info.weight))];
      }
      r := Pass;
    }
  }
}
