/** The bipartite membership graph shared by `Model` and `Environment`:
    nodes carry a side (networkx attribute `bipartite`, 0 for agents and 1
    for locations) and the agentpy `type` of their object; an edge always
    joins an agent to a location and is keyed `(agent id, location id)`.
    This module holds the read-only queries both classes answer. */
module Bipartite {
  import opened Common

  datatype Side = AgentSide | LocationSide

  /** The value stored in the node attribute `bipartite`. */
  function BipartiteTag(s: Side): nat
  {
    match s
    case AgentSide => 0
    case LocationSide => 1
  }

  /** Node data: the side and the `type` (class name) of its object. */
  datatype Node = Node(side: Side, kind: string)

  datatype GraphError =
    | LocationMissing(location: Id)   // "Location ... does not exist in Environment!"
    | AgentMissing(agent: Id)         // "Agent ... does not exist in Environment!"
    | NodeNotFound(node: Id)          // networkx: the node is not in the graph
    | NoEdge(agent: Id, location: Id) // KeyError on g[agent][location]
    | EmptyClassList                  // `raise Exception` for an empty class filter

  /** The graph invariant: every edge joins a registered agent to a registered location. */
  ghost predicate WellFormed(nodes: map<Id, Node>, links: set<(Id, Id)>)
  {
    forall e | e in links ::
      e.0 in nodes && e.1 in nodes && nodes[e.0].side == AgentSide && nodes[e.1].side == LocationSide
  }

  /** An id passed where the source expects an Agent object is not a location node. */
  predicate AgentArg(nodes: map<Id, Node>, a: Id)
  {
    a !in nodes || nodes[a].side == AgentSide
  }

  /** An id passed where the source expects a Location object is not an agent node. */
  predicate LocationArg(nodes: map<Id, Node>, l: Id)
  {
    l !in nodes || nodes[l].side == LocationSide
  }

  /** `g.neighbors(x)` of the undirected graph. */
  function Adjacent(links: set<(Id, Id)>, x: Id): set<Id>
  {
    (set e | e in links && e.0 == x :: e.1) + (set e | e in links && e.1 == x :: e.0)
  }

  /** The nodes of `xs` whose `bipartite` attribute is that of `side`. */
  function OnSide(nodes: map<Id, Node>, xs: set<Id>, side: Side): set<Id>
  {
    set y | y in xs && y in nodes && BipartiteTag(nodes[y].side) == BipartiteTag(side)
  }

  /** The ids of all agent nodes (the `agents` view of the graph). */
  function AgentIds(nodes: map<Id, Node>): set<Id>
  {
    OnSide(nodes, nodes.Keys, AgentSide)
  }

  /** The ids of all location nodes (the `locations` view of the graph). */
  function LocationIds(nodes: map<Id, Node>): set<Id>
  {
    OnSide(nodes, nodes.Keys, LocationSide)
  }

  /** The two views split the registered nodes: every node is in exactly one. */
  lemma ViewsPartition(nodes: map<Id, Node>)
    ensures AgentIds(nodes) !! LocationIds(nodes)
    ensures AgentIds(nodes) + LocationIds(nodes) == nodes.Keys
  {
    forall x | x in nodes
      ensures x in AgentIds(nodes) || x in LocationIds(nodes)
    {
      if nodes[x].side == AgentSide {
        assert x in AgentIds(nodes);
      } else {
        assert x in LocationIds(nodes);
      }
    }
  }

  /** `agents_of_location`: the agent-side neighbours of a location. */
  function AgentsOfLocation(nodes: map<Id, Node>, links: set<(Id, Id)>, l: Id): (r: Result<set<Id>, GraphError>)
    requires WellFormed(nodes, links) && LocationArg(nodes, l)
    ensures r.Err? <==> l !in nodes
    ensures r.Ok? ==> forall y :: y in r.value ==> y in nodes && nodes[y].side == AgentSide
    ensures r.Ok? ==> forall y :: y in r.value <==> (y, l) in links
  {
    if l !in nodes then Err(NodeNotFound(l))
    else
      var r := OnSide(nodes, Adjacent(links, l), AgentSide);
      assert forall y :: (y, l) in links ==> y in Adjacent(links, l);
      Ok(r)
  }

  /** `locations_of_agent`: the location-side neighbours of an agent. */
  function LocationsOfAgent(nodes: map<Id, Node>, links: set<(Id, Id)>, a: Id): (r: Result<set<Id>, GraphError>)
    requires WellFormed(nodes, links) && AgentArg(nodes, a)
    ensures r.Err? <==> a !in nodes
    ensures r.Ok? ==> forall y :: y in r.value ==> y in nodes && nodes[y].side == LocationSide
    ensures r.Ok? ==> forall y :: y in r.value <==> (a, y) in links
  {
    if a !in nodes then Err(NodeNotFound(a))
    else
      var r := OnSide(nodes, Adjacent(links, a), LocationSide);
      assert forall y :: (a, y) in links ==> y in Adjacent(links, a);
      Ok(r)
  }

  /** Location `l` joins agents `a` and `b`, and its type passes the class
      filter `kinds` (an empty filter, as for `None` or `[]`, passes all). */
  ghost predicate SharedVia(nodes: map<Id, Node>, links: set<(Id, Id)>, a: Id, b: Id, l: Id, kinds: seq<string>)
  {
    (a, l) in links && (b, l) in links && l in nodes && (kinds == [] || nodes[l].kind in kinds)
  }

  /** The locations an agent's neighbour search walks through. */
  function VisitedLocations(nodes: map<Id, Node>, links: set<(Id, Id)>, a: Id, kinds: seq<string>): set<Id>
  {
    set l | l in OnSide(nodes, Adjacent(links, a), LocationSide) && (kinds == [] || nodes[l].kind in kinds)
  }

  /** `neighbors_of_agent`: the agents met in the agent's (type-filtered)
      locations, each once, without the agent itself. */
  function NeighborsOfAgent(nodes: map<Id, Node>, links: set<(Id, Id)>, a: Id, kinds: seq<string>)
    : (r: Result<set<Id>, GraphError>)
    requires WellFormed(nodes, links) && AgentArg(nodes, a)
    ensures r.Err? <==> a !in nodes
    ensures r.Ok? ==> a !in r.value
    ensures r.Ok? ==> forall b :: b in r.value ==> b in nodes && nodes[b].side == AgentSide
    ensures r.Ok? ==> forall b :: b in r.value <==> b != a && exists l :: SharedVia(nodes, links, a, b, l, kinds)
  {
    if a !in nodes then Err(NodeNotFound(a))
    else
      var locs := VisitedLocations(nodes, links, a, kinds);
      var met := set l, y | l in locs && y in OnSide(nodes, Adjacent(links, l), AgentSide) :: y;
      var r := set y | y in met && y != a;
      forall b, l | SharedVia(nodes, links, a, b, l, kinds) ensures b in met {
        assert l in Adjacent(links, a) && l in locs && b in Adjacent(links, l);
        assert b in OnSide(nodes, Adjacent(links, l), AgentSide);
      }
      forall b | b in met ensures exists l :: SharedVia(nodes, links, a, b, l, kinds) {
        var l :| l in locs && b in OnSide(nodes, Adjacent(links, l), AgentSide);
        assert (a, l) in links;
        assert (b, l) in links;
        assert SharedVia(nodes, links, a, b, l, kinds);
      }
      Ok(r)
  }

  /** Neighbourhood is symmetric, for any class filter. */
  lemma NeighborsSymmetric(nodes: map<Id, Node>, links: set<(Id, Id)>, a: Id, b: Id, kinds: seq<string>)
    requires WellFormed(nodes, links) && AgentArg(nodes, a) && AgentArg(nodes, b)
    requires a in nodes && b in nodes
    ensures b in NeighborsOfAgent(nodes, links, a, kinds).value <==> a in NeighborsOfAgent(nodes, links, b, kinds).value
  {
    var ra, rb := NeighborsOfAgent(nodes, links, a, kinds), NeighborsOfAgent(nodes, links, b, kinds);
    if b in ra.value {
      var l :| SharedVia(nodes, links, a, b, l, kinds);
      assert SharedVia(nodes, links, b, a, l, kinds);
    }
    if a in rb.value {
      var l :| SharedVia(nodes, links, b, a, l, kinds);
      assert SharedVia(nodes, links, a, b, l, kinds);
    }
  }

  /** `path[1]` of every simple path of one or two edges from `o1` to `o2`
      (`nx.all_simple_paths(g, o1, o2, cutoff=2)`, which yields nothing when
      the two are the same node). */
  function PathMiddles(links: set<(Id, Id)>, o1: Id, o2: Id): set<Id>
  {
    if o1 == o2 then {}
    else
      (if o2 in Adjacent(links, o1) then {o2} else {})
      + (set x | x in Adjacent(links, o1) && x != o1 && x != o2 && o2 in Adjacent(links, x))
  }

  /** `_objects_between_objects`: the middle nodes of the short paths
      between two objects, optionally restricted to some types. */
  function ObjectsBetween(nodes: map<Id, Node>, links: set<(Id, Id)>, o1: Id, o2: Id, classes: Option<seq<string>>)
    : (r: Result<set<Id>, GraphError>)
    ensures o1 !in nodes ==> r == Err(NodeNotFound(o1))
    ensures o1 in nodes && o2 !in nodes ==> r == Err(NodeNotFound(o2))
    ensures o1 in nodes && o2 in nodes ==> (r.Err? <==> classes == Some([]))
    ensures r.Ok? ==> forall x :: x in r.value <==>
      x in PathMiddles(links, o1, o2) && (classes.None? || (x in nodes && nodes[x].kind in classes.value))
  {
    if o1 !in nodes then Err(NodeNotFound(o1))
    else if o2 !in nodes then Err(NodeNotFound(o2))
    else
      var middles := PathMiddles(links, o1, o2);
      match classes
      case None => Ok(middles)
      case Some(ks) =>
        if |ks| < 1 then Err(EmptyClassList)
        else Ok(set x | x in middles && x in nodes && nodes[x].kind in ks)
  }

  /** Between two distinct agents lie exactly the locations they share. */
  lemma BetweenAgents(nodes: map<Id, Node>, links: set<(Id, Id)>, a: Id, b: Id)
    requires WellFormed(nodes, links)
    requires a in nodes && b in nodes && a != b
    requires nodes[a].side == AgentSide && nodes[b].side == AgentSide
    ensures ObjectsBetween(nodes, links, a, b, None) == Ok(set l | l in nodes && (a, l) in links && (b, l) in links)
  {
    var shared := set l | l in nodes && (a, l) in links && (b, l) in links;
    var m := PathMiddles(links, a, b);
    assert b !in Adjacent(links, a);
    forall l | l in shared ensures l in m {
      assert l in Adjacent(links, a) && b in Adjacent(links, l);
    }
    forall x | x in m ensures x in shared {
      assert x in Adjacent(links, a) && b in Adjacent(links, x);
      assert x in nodes && nodes[x].side == LocationSide;
      assert (a, x) in links && (b, x) in links;
    }
    assert m == shared;
  }

  /** Between two distinct locations lie exactly the agents that belong to both. */
  lemma BetweenLocations(nodes: map<Id, Node>, links: set<(Id, Id)>, l1: Id, l2: Id)
    requires WellFormed(nodes, links)
    requires l1 in nodes && l2 in nodes && l1 != l2
    requires nodes[l1].side == LocationSide && nodes[l2].side == LocationSide
    ensures ObjectsBetween(nodes, links, l1, l2, None) == Ok(set a | a in nodes && (a, l1) in links && (a, l2) in links)
  {
    var shared := set a | a in nodes && (a, l1) in links && (a, l2) in links;
    var m := PathMiddles(links, l1, l2);
    assert l2 !in Adjacent(links, l1);
    forall a | a in shared ensures a in m {
      assert a in Adjacent(links, l1) && l2 in Adjacent(links, a);
    }
    forall x | x in m ensures x in shared {
      assert x in Adjacent(links, l1) && l2 in Adjacent(links, x);
      assert x in nodes && nodes[x].side == AgentSide;
      assert (x, l1) in links && (x, l2) in links;
    }
    assert m == shared;
  }

  /** Between an agent and a location lies the location itself when the
      agent belongs to it (the one-edge path), and nothing otherwise. */
  lemma BetweenAgentAndLocation(nodes: map<Id, Node>, links: set<(Id, Id)>, a: Id, l: Id)
    requires WellFormed(nodes, links)
    requires a in nodes && l in nodes
    requires nodes[a].side == AgentSide && nodes[l].side == LocationSide
    ensures ObjectsBetween(nodes, links, a, l, None) == Ok(if (a, l) in links then {l} else {})
  {
    var m := PathMiddles(links, a, l);
    forall x | x in Adjacent(links, a) && x != a && x != l
      ensures l !in Adjacent(links, x)
    {
      assert x in nodes && nodes[x].side == LocationSide;
    }
    assert (a, l) in links <==> l in Adjacent(links, a);
    assert m == if (a, l) in links then {l} else {};
  }
}
