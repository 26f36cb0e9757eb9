/** `popy.Environment`: a bipartite membership graph whose edges carry
    free-form keyword attributes instead of a single weight. */
module Env {
  import opened Common
  import opened Bipartite

  class Environment {
    /** The nodes of `g` with their `bipartite` side and object type. */
    var nodes: map<Id, Node>
    /** The edges of `g`, keyed (agent, location), with their attributes. */
    var edges: map<(Id, Id), map<string, Datum>>

    ghost predicate Valid()
      reads this
    {
      WellFormed(nodes, edges.Keys)
    }

    constructor ()
      ensures Valid()
      ensures nodes == map[] && edges == map[]
    {
      nodes := map[];
      edges := map[];
    }

    /** `add_agent`: registers a new agent node; a no-op for a known id. */
    method AddAgent(a: Id, kind: string)
      requires Valid()
      modifies this
      ensures Valid()
      ensures edges == old(edges)
      ensures a in old(nodes) ==> nodes == old(nodes)
      ensures a !in old(nodes) ==> nodes == old(nodes)[a := Node(AgentSide, kind)]
    {
      if a !in nodes {
        nodes := nodes[a := Node(AgentSide, kind)];
      }
    }

    /** `add_location`: registers a new location node; a no-op for a known id. */
    method AddLocation(l: Id, kind: string)
      requires Valid()
      modifies this
      ensures Valid()
      ensures edges == old(edges)
      ensures l in old(nodes) ==> nodes == old(nodes)
      ensures l !in old(nodes) ==> nodes == old(nodes)[l := Node(LocationSide, kind)]
    {
      if l !in nodes {
        nodes := nodes[l := Node(LocationSide, kind)];
      }
    }

    /** `add_agent_to_location`: both ends must be registered; a new edge
        takes `attrs`, an existing edge keeps the attributes it had. */
    method AddAgentToLocation(l: Id, a: Id, attrs: map<string, Datum>) returns (r: Outcome<GraphError>)
      requires Valid() && AgentArg(nodes, a) && LocationArg(nodes, l)
      modifies this
      ensures Valid() && nodes == old(nodes)
      ensures l !in nodes ==> r == Fail(LocationMissing(l)) && edges == old(edges)
      ensures l in nodes && a !in nodes ==> r == Fail(AgentMissing(a)) && edges == old(edges)
      ensures l in nodes && a in nodes && (a, l) in old(edges) ==> r == Pass && edges == old(edges)
      ensures l in nodes && a in nodes && (a, l) !in old(edges) ==> r == Pass && edges == old(edges)[(a, l) := attrs]
      ensures r == Pass ==> (a, l) in edges
    {
      if l !in nodes {
        return Fail(LocationMissing(l));
      }
      if a !in nodes {
        return Fail(AgentMissing(a));
      }
      if (a, l) !in edges {
        edges := edges[(a, l) := attrs];
      }
      r := Pass;
    }

    /** `remove_agent`: drops the agent and all its memberships; a no-op for an unknown id. */
    method RemoveAgent(a: Id)
      requires Valid()
      modifies this
      ensures Valid()
      ensures nodes == old(nodes) - {a}
      ensures forall e :: e in edges <==> e in old(edges) && e.0 != a && e.1 != a
      ensures forall e | e in edges :: edges[e] == old(edges)[e]
    {
      if a in nodes {
        nodes := nodes - {a};
        edges := map e | e in edges && e.0 != a && e.1 != a :: edges[e];
      } else {
        assert nodes - {a} == nodes;
      }
    }

    /** `remove_location`: drops the location and all its memberships; a no-op for an unknown id. */
    method RemoveLocation(l: Id)
      requires Valid()
      modifies this
      ensures Valid()
      ensures nodes == old(nodes) - {l}
      ensures forall e :: e in edges <==> e in old(edges) && e.0 != l && e.1 != l
      ensures forall e | e in edges :: edges[e] == old(edges)[e]
    {
      if l in nodes {
        nodes := nodes - {l};
        edges := map e | e in edges && e.0 != l && e.1 != l :: edges[e];
      } else {
        assert nodes - {l} == nodes;
      }
    }

    /** `remove_agent_from_location`: both ends must be registered; afterwards
        no edge joins them. */
    method RemoveAgentFromLocation(l: Id, a: Id) returns (r: Outcome<GraphError>)
      requires Valid() && AgentArg(nodes, a) && LocationArg(nodes, l)
      modifies this
      ensures Valid() && nodes == old(nodes)
      ensures l !in nodes ==> r == Fail(LocationMissing(l)) && edges == old(edges)
      ensures l in nodes && a !in nodes ==> r == Fail(AgentMissing(a)) && edges == old(edges)
      ensures l in nodes && a in nodes ==> r == Pass && edges == old(edges) - {(a, l)}
      ensures r == Pass ==> (a, l) !in edges
    {
      if l !in nodes {
        return Fail(LocationMissing(l));
      }
      if a !in nodes {
        return Fail(AgentMissing(a));
      }
      if (a, l) in edges {
        edges := edges - {(a, l)};
      }
      r := Pass;
    }

    /** `agents_of_location`: the agents that belong to the location. */
    function AgentsOfLocation(l: Id): (r: Result<set<Id>, GraphError>)
      reads this
      requires Valid() && LocationArg(nodes, l)
      ensures r.Err? <==> l !in nodes
      ensures r.Ok? ==> forall y :: y in r.value ==> y in nodes && nodes[y].side == AgentSide
      ensures r.Ok? ==> forall y :: y in r.value <==> (y, l) in edges
    {
      Bipartite.AgentsOfLocation(nodes, edges.Keys, l)
    }

    /** `locations_of_agent`: the locations the agent belongs to. */
    function LocationsOfAgent(a: Id): (r: Result<set<Id>, GraphError>)
      reads this
      requires Valid() && AgentArg(nodes, a)
      ensures r.Err? <==> a !in nodes
      ensures r.Ok? ==> forall y :: y in r.value ==> y in nodes && nodes[y].side == LocationSide
      ensures r.Ok? ==> forall y :: y in r.value <==> (a, y) in edges
    {
      Bipartite.LocationsOfAgent(nodes, edges.Keys, a)
    }

    /** `neighbors_of_agent`: the agents sharing at least one location with
        `a`, each once, without `a`. */
    function NeighborsOfAgent(a: Id): (r: Result<set<Id>, GraphError>)
      reads this
      requires Valid() && AgentArg(nodes, a)
      ensures r.Err? <==> a !in nodes
      ensures r.Ok? ==> a !in r.value
      ensures r.Ok? ==> forall b :: b in r.value <==>
        b != a && exists l :: (a, l) in edges && (b, l) in edges
    {
      var r := Bipartite.NeighborsOfAgent(nodes, edges.Keys, a, []);
      assert r.Ok? ==> forall b :: b in r.value ==> exists l :: (a, l) in edges && (b, l) in edges;
      assert r.Ok? ==> forall b, l :: b != a && (a, l) in edges && (b, l) in edges ==>
        SharedVia(nodes, edges.Keys, a, b, l, []);
      r
    }

    /** `set_edge_attribute`: sets one attribute of an existing edge, leaving
        its other attributes and every other edge as they were; fails when
        there is no such edge. */
    method SetEdgeAttribute(l: Id, a: Id, name: string, value: Datum) returns (r: Outcome<GraphError>)
      requires Valid()
      modifies this
      ensures Valid() && nodes == old(nodes)
      ensures (a, l) !in old(edges) ==> r.Fail? && edges == old(edges)
      ensures (a, l) in old(edges) ==> r == Pass && edges == old(edges)[(a, l) := old(edges)[(a, l)][name := value]]
      ensures r == Pass ==> name in edges[(a, l)] && edges[(a, l)][name] == value
    {
      if a !in nodes {
        return Fail(NodeNotFound(a));
      }
      if (a, l) !in edges {
        return Fail(NoEdge(a, l));
      }
      edges := edges[(a, l) := edges[(a, l)][name := value]];
      r := Pass;
    }
  }
}
