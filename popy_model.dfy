/** `popy.Model`: the simulation model owning the bipartite membership
    graph `g`. Nodes are agents and locations; every edge carries a numeric
    `weight` (the contact intensity of the agent at the location). */
module PopyModel {
  import opened Common
  import opened Bipartite

  /** `weight=None` is stored as 1. */
  function StoredWeight(w: Option<real>): real
  {
    match w
    case None => 1.0
    case Some(x) => x
  }

  /** The edges that remain once node `x` is removed (`remove_node` drops
      every incident edge). */
  function Detach<V>(edges: map<(Id, Id), V>, x: Id): (r: map<(Id, Id), V>)
    ensures forall e :: e in r <==> e in edges && e.0 != x && e.1 != x
    ensures forall e :: e in r ==> r[e] == edges[e]
  {
    map e | e in edges && e.0 != x && e.1 != x :: edges[e]
  }

  class Model {
    /** The nodes of `g` with their `bipartite` side and object type. */
    var nodes: map<Id, Node>
    /** The edges of `g`, keyed (agent, location), with their weight. */
    var weight: map<(Id, Id), real>

    ghost predicate Valid()
      reads this
    {
      WellFormed(nodes, weight.Keys)
    }

    constructor ()
      ensures Valid()
      ensures nodes == map[] && weight == map[]
    {
      nodes := map[];
      weight := map[];
    }

    /** The `agents` view: every registered agent, and every agent that has a membership. */
    function Agents(): (r: set<Id>)
      reads this
      requires Valid()
      ensures forall x :: x in r <==> x in nodes && nodes[x].side == AgentSide
      ensures forall e | e in weight :: e.0 in r
      ensures forall e | e in weight :: e.1 !in r
    {
      AgentIds(nodes)
    }

    /** The `locations` view: every registered location, and every location that has a member. */
    function Locations(): (r: set<Id>)
      reads this
      requires Valid()
      ensures forall x :: x in r <==> x in nodes && nodes[x].side == LocationSide
      ensures forall e | e in weight :: e.1 in r
      ensures forall e | e in weight :: e.0 !in r
    {
      LocationIds(nodes)
    }

    /** `add_agent`: registers a new agent node (`bipartite=0`); a no-op for a known id. */
    method AddAgent(a: Id, kind: string)
      requires Valid()
      modifies this
      ensures Valid()
      ensures weight == old(weight)
      ensures a in old(nodes) ==> nodes == old(nodes)
      ensures a !in old(nodes) ==> nodes == old(nodes)[a := Node(AgentSide, kind)]
    {
      if a !in nodes {
        nodes := nodes[a := Node(AgentSide, kind)];
      }
    }

    /** `add_agents`: `add_agent` for each element of a list. */
    method AddAgents(agents: seq<(Id, string)>)
      requires Valid()
      modifies this
      ensures Valid()
      ensures weight == old(weight)
      ensures nodes.Keys == old(nodes).Keys + set p | p in agents :: p.0
      ensures forall x | x in old(nodes) :: nodes[x] == old(nodes)[x]
      ensures forall x | x in nodes && x !in old(nodes) :: nodes[x].side == AgentSide
    {
      var i := 0;
      while i < |agents|
        invariant 0 <= i <= |agents|
        invariant Valid() && weight == old(weight)
        invariant nodes.Keys == old(nodes).Keys + set p | p in agents[..i] :: p.0
        invariant forall x | x in old(nodes) :: nodes[x] == old(nodes)[x]
        invariant forall x | x in nodes && x !in old(nodes) :: nodes[x].side == AgentSide
      {
        assert agents[..i + 1] == agents[..i] + [agents[i]];
        AddAgent(agents[i].0, agents[i].1);
        i := i + 1;
      }
      assert agents[..i] == agents;
    }

    /** `add_location`: registers a new location node (`bipartite=1`); a no-op for a known id. */
    method AddLocation(l: Id, kind: string)
      requires Valid()
      modifies this
      ensures Valid()
      ensures weight == old(weight)
      ensures l in old(nodes) ==> nodes == old(nodes)
      ensures l !in old(nodes) ==> nodes == old(nodes)[l := Node(LocationSide, kind)]
    {
      if l !in nodes {
        nodes := nodes[l := Node(LocationSide, kind)];
      }
    }

    /** `add_locations`: `add_location` for each element of a list. */
    method AddLocations(locations: seq<(Id, string)>)
      requires Valid()
      modifies this
      ensures Valid()
      ensures weight == old(weight)
      ensures nodes.Keys == old(nodes).Keys + set p | p in locations :: p.0
      ensures forall x | x in old(nodes) :: nodes[x] == old(nodes)[x]
      ensures forall x | x in nodes && x !in old(nodes) :: nodes[x].side == LocationSide
    {
      var i := 0;
      while i < |locations|
        invariant 0 <= i <= |locations|
        invariant Valid() && weight == old(weight)
        invariant nodes.Keys == old(nodes).Keys + set p | p in locations[..i] :: p.0
        invariant forall x | x in old(nodes) :: nodes[x] == old(nodes)[x]
        invariant forall x | x in nodes && x !in old(nodes) :: nodes[x].side == LocationSide
      {
        assert locations[..i + 1] == locations[..i] + [locations[i]];
        AddLocation(locations[i].0, locations[i].1);
        i := i + 1;
      }
      assert locations[..i] == locations;
    }

    /** `add_agent_to_location`: both ends must be registered; the edge is
        created or kept and its weight (1 for `None`) overwrites any earlier one. */
    method AddAgentToLocation(l: Id, a: Id, w: Option<real>) returns (r: Outcome<GraphError>)
      requires Valid() && AgentArg(nodes, a) && LocationArg(nodes, l)
      modifies this
      ensures Valid() && nodes == old(nodes)
      ensures l !in nodes ==> r == Fail(LocationMissing(l)) && weight == old(weight)
      ensures l in nodes && a !in nodes ==> r == Fail(AgentMissing(a)) && weight == old(weight)
      ensures l in nodes && a in nodes ==> r == Pass && weight == old(weight)[(a, l) := StoredWeight(w)]
      ensures r == Pass ==> GetWeight(a, l) == Ok(StoredWeight(w))
    {
      if l !in nodes {
        return Fail(LocationMissing(l));
      }
      if a !in nodes {
        return Fail(AgentMissing(a));
      }
      // g.add_edge followed by set_weight
      weight := weight[(a, l) := StoredWeight(w)];
      r := Pass;
    }

    /** `remove_node` shared by `remove_agent` and `remove_location`. */
    method RemoveNode(x: Id)
      requires Valid()
      modifies this
      ensures Valid()
      ensures nodes == old(nodes) - {x}
      ensures weight == Detach(old(weight), x)
      ensures x !in old(nodes) ==> nodes == old(nodes) && weight == old(weight)
    {
      if x in nodes {
        nodes := nodes - {x};
        weight := Detach(weight, x);
      } else {
        assert Detach(weight, x) == weight;
        assert nodes - {x} == nodes;
      }
    }

    /** `remove_agent`: drops the agent and all its memberships; a no-op for an unknown id. */
    method RemoveAgent(a: Id)
      requires Valid()
      modifies this
      ensures Valid()
      ensures nodes == old(nodes) - {a}
      ensures weight == Detach(old(weight), a)
      ensures a !in old(nodes) ==> nodes == old(nodes) && weight == old(weight)
    {
      RemoveNode(a);
    }

    /** `remove_agents`: `remove_agent` for each element of a list. */
    method RemoveAgents(agents: seq<Id>)
      requires Valid()
      modifies this
      ensures Valid()
      ensures nodes.Keys == old(nodes).Keys - set x | x in agents
      ensures forall x | x in nodes :: nodes[x] == old(nodes)[x]
      ensures forall e :: e in weight <==> e in old(weight) && e.0 !in agents && e.1 !in agents
      ensures forall e | e in weight :: weight[e] == old(weight)[e]
    {
      var i := 0;
      while i < |agents|
        invariant 0 <= i <= |agents|
        invariant Valid()
        invariant nodes.Keys == old(nodes).Keys - set x | x in agents[..i]
        invariant forall x | x in nodes :: nodes[x] == old(nodes)[x]
        invariant forall e :: e in weight <==> e in old(weight) && e.0 !in agents[..i] && e.1 !in agents[..i]
        invariant forall e | e in weight :: weight[e] == old(weight)[e]
      {
        assert agents[..i + 1] == agents[..i] + [agents[i]];
        RemoveAgent(agents[i]);
        i := i + 1;
      }
      assert agents[..i] == agents;
    }

    /** `remove_location`: drops the location and all its memberships; a no-op for an unknown id. */
    method RemoveLocation(l: Id)
      requires Valid()
      modifies this
      ensures Valid()
      ensures nodes == old(nodes) - {l}
      ensures weight == Detach(old(weight), l)
      ensures l !in old(nodes) ==> nodes == old(nodes) && weight == old(weight)
    {
      RemoveNode(l);
    }

    /** `remove_locations`: `remove_location` for each element of a list. */
    method RemoveLocations(locations: seq<Id>)
      requires Valid()
      modifies this
      ensures Valid()
      ensures nodes.Keys == old(nodes).Keys - set x | x in locations
      ensures forall x | x in nodes :: nodes[x] == old(nodes)[x]
      ensures forall e :: e in weight <==> e in old(weight) && e.0 !in locations && e.1 !in locations
      ensures forall e | e in weight :: weight[e] == old(weight)[e]
    {
      var i := 0;
      while i < |locations|
        invariant 0 <= i <= |locations|
        invariant Valid()
        invariant nodes.Keys == old(nodes).Keys - set x | x in locations[..i]
        invariant forall x | x in nodes :: nodes[x] == old(nodes)[x]
        invariant forall e :: e in weight <==> e in old(weight) && e.0 !in locations[..i] && e.1 !in locations[..i]
        invariant forall e | e in weight :: weight[e] == old(weight)[e]
      {
        assert locations[..i + 1] == locations[..i] + [locations[i]];
        RemoveLocation(locations[i]);
        i := i + 1;
      }
      assert locations[..i] == locations;
    }

    /** `remove_agent_from_location`: both ends must be registered; afterwards
        no edge joins them (a no-op when there was none). */
    method RemoveAgentFromLocation(l: Id, a: Id) returns (r: Outcome<GraphError>)
      requires Valid() && AgentArg(nodes, a) && LocationArg(nodes, l)
      modifies this
      ensures Valid() && nodes == old(nodes)
      ensures l !in nodes ==> r == Fail(LocationMissing(l)) && weight == old(weight)
      ensures l in nodes && a !in nodes ==> r == Fail(AgentMissing(a)) && weight == old(weight)
      ensures l in nodes && a in nodes ==> r == Pass && weight == old(weight) - {(a, l)}
      ensures r == Pass ==> (a, l) !in weight
    {
      if l !in nodes {
        return Fail(LocationMissing(l));
      }
      if a !in nodes {
        return Fail(AgentMissing(a));
      }
      if (a, l) in weight {
        weight := weight - {(a, l)};
      }
      r := Pass;
    }

    /** `agents_of_location`: the agents that belong to the location. */
    function AgentsOfLocation(l: Id): (r: Result<set<Id>, GraphError>)
      reads this
      requires Valid() && LocationArg(nodes, l)
      ensures r.Err? <==> l !in nodes
      ensures r.Ok? ==> forall y :: y in r.value ==> y in nodes && nodes[y].side == AgentSide
      ensures r.Ok? ==> forall y :: y in r.value <==> (y, l) in weight
    {
      Bipartite.AgentsOfLocation(nodes, weight.Keys, l)
    }

    /** `locations_of_agent`: the locations the agent belongs to. */
    function LocationsOfAgent(a: Id): (r: Result<set<Id>, GraphError>)
      reads this
      requires Valid() && AgentArg(nodes, a)
      ensures r.Err? <==> a !in nodes
      ensures r.Ok? ==> forall y :: y in r.value ==> y in nodes && nodes[y].side == LocationSide
      ensures r.Ok? ==> forall y :: y in r.value <==> (a, y) in weight
    {
      Bipartite.LocationsOfAgent(nodes, weight.Keys, a)
    }

    /** `neighbors_of_agent`: the agents sharing a location with `a` whose
        type is in `classes` (every location when `classes` is `None` or
        empty), each once, without `a`. */
    function NeighborsOfAgent(a: Id, classes: seq<string>): (r: Result<set<Id>, GraphError>)
      reads this
      requires Valid() && AgentArg(nodes, a)
      ensures r.Err? <==> a !in nodes
      ensures r.Ok? ==> a !in r.value
      ensures r.Ok? ==> forall b :: b in r.value <==>
        b != a && exists l :: SharedVia(nodes, weight.Keys, a, b, l, classes)
    {
      Bipartite.NeighborsOfAgent(nodes, weight.Keys, a, classes)
    }

    /** `_objects_between_objects`: the middle nodes of the paths of at most
        two edges between two objects, filtered by type when a class list is
        given; an empty class list is an error. */
    function ObjectsBetweenObjects(o1: Id, o2: Id, classes: Option<seq<string>>): (r: Result<set<Id>, GraphError>)
      reads this
      requires Valid()
      ensures o1 !in nodes ==> r == Err(NodeNotFound(o1))
      ensures o1 in nodes && o2 !in nodes ==> r == Err(NodeNotFound(o2))
      ensures o1 in nodes && o2 in nodes ==> (r.Err? <==> classes == Some([]))
      ensures r.Ok? ==> forall x :: x in r.value <==>
        x in PathMiddles(weight.Keys, o1, o2) && (classes.None? || (x in nodes && nodes[x].kind in classes.value))
    {
      Bipartite.ObjectsBetween(nodes, weight.Keys, o1, o2, classes)
    }

    /** `set_weight`: overwrites the weight of an existing edge (1 for
        `None`); fails when there is no such edge. */
    method SetWeight(a: Id, l: Id, w: Option<real>) returns (r: Outcome<GraphError>)
      requires Valid() && AgentArg(nodes, a) && LocationArg(nodes, l)
      modifies this
      ensures Valid() && nodes == old(nodes)
      ensures (a, l) !in old(weight) ==> r == Fail(NoEdge(a, l)) && weight == old(weight)
      ensures (a, l) in old(weight) ==> r == Pass && weight == old(weight)[(a, l) := StoredWeight(w)]
      ensures r == Pass ==> GetWeight(a, l) == Ok(StoredWeight(w))
    {
      if (a, l) !in weight {
        return Fail(NoEdge(a, l));
      }
      weight := weight[(a, l) := StoredWeight(w)];
      r := Pass;
    }

    /** `get_weight`: the weight of an existing edge; fails when there is none. */
    function GetWeight(a: Id, l: Id): (r: Result<real, GraphError>)
      reads this
      ensures r.Ok? <==> (a, l) in weight
      ensures r.Ok? ==> r.value == weight[(a, l)]
    {
      if (a, l) in weight then Ok(weight[(a, l)]) else Err(NoEdge(a, l))
    }
  }
}
