# popy population model in Dafny

popy builds synthetic populations for agent-based simulations. A `PopMaker`
turns records, or a plain count, into agents. It then places the agents into
the locations of a list of location classes. Each location class is a bundle
of hooks:

- `filter` selects who may join;
- `split` and `nest` give the group values;
- `stick_together` names agents that must stay together;
- `size`, `n_locations`, `allow_overcrowding`, `round_function` and `find`
  decide how many agents share a group;
- `melt` and `multi_melt` merge the groups of several classes;
- `subsplit` cuts a group into the final locations.

The result lives in two graphs:

- a bipartite membership graph, once as `Model` with weighted edges and once
  as `Environment` with free-form edge attributes;
- a small complete contact graph inside every location (`FullGraph`), which
  `Location` guards with its admission hooks and a visitor counter.

The project models these parts in nine modules:

- `Common`: ids, options, results, the sequence helpers (`Filter`,
  `Flatten`, the decimal text of a number).
- `Bipartite`: the read-only queries of the membership graph, shared by
  `Model` and `Environment`.
- `PopyModel`: the class `Model` of `src/popy/model.py`.
- `Env`: the class `Environment` of `src/popy/environment.py`.
- `Contact`: `FullGraph`, `Location` and the agent's list of locations from
  `src/location.py`.
- `Policy`: the location class as a record of hooks, and the pure rules
  (stick keys, mother ids, affiliation, group targets).
- `Grouping`: `_get_groups`, the first-fit packing of stick-together
  clusters.
- `Melting`: the position-by-position merge of `_get_melted_groups`.
- `Engine`: the class `PopMaker` with `create_agents`, `create_locations`
  and their helpers. The agents' data attributes, their memberships and the
  temporary group values are fields of the maker.

Agents and locations are natural-number ids drawn from one counter, as
agentpy draws them. Hook answers are represented by their text form. Every
shuffle and every iteration over a Python set is an arbitrary choice (`:|`),
so each property holds for every order the source could produce.

Where the documented behaviour and the code differ, the model follows the
code:

- With several locations of the nesting class, the mother id is that of the
  **last** one the agent joined (`src/popy/pop_maker.py:201-204`).
- Without `multi_melt`, the number of merged groups is the **shortest**
  list's length (`src/popy/pop_maker.py:399-402`).
- `_get_melted_groups` resets its result inside the loop over mother ids
  (`src/popy/pop_maker.py:398`). Only the merge for the last mother id is
  returned, so agents of the other mother ids get no location of a melting
  class.
- `find` is asked on the probe location. That location holds the agents
  added since the last new group, not the members of the candidate group
  (`src/popy/pop_maker.py:270-315`).
- For a melting class, `_get_split_values` inside `_get_melted_groups`
  (`src/popy/pop_maker.py:375-379`) overwrites the temporary group values
  that `create_locations` stored for the class's group values. A later
  group value's lookup (`src/popy/pop_maker.py:497`) can then find no
  agent. `_get_melted_groups` is called with an empty list and raises
  `UnboundLocalError` (`src/popy/pop_maker.py:417`); the model returns no
  groups for that value.
- The descriptor written on each member is
  `gv=<group value>, ` followed by 36 spaces and `gid=<group id>`. The line
  continuation inside the f-string keeps the next line's indentation
  (`src/popy/pop_maker.py:555-558`).

## Model

| member | source | states |
|---|---|---|
| Common.Filter | src/popy/pop_maker.py:189-190 | a list comprehension with a condition keeps exactly the elements passing the test, each as often as in the input, in input order |
| Common.FilterConcat | src/popy/pop_maker.py:478-485 | filtering a concatenation is the concatenation of the filtered parts |
| Policy.AsList | src/popy/pop_maker.py:230 | a single hook answer becomes a one-element list; a list answer is kept as it is |
| Policy.GroupTarget | src/popy/pop_maker.py:258-265 | the target number of groups is `n_locations` when set; otherwise at least 1; exactly 1 without `size`; otherwise `round_function(n, size)` when that is at least 1 |
| Policy.DefaultStickKeysDistinct | src/popy/pop_maker.py:246-251 | two agents without a stick-together value never share a key, so each forms a cluster of its own |
| Policy.CountOfClass | src/popy/pop_maker.py:200-204 | the count of nesting-class locations is at most the number of locations |
| Policy.CountOfClassZero | src/popy/pop_maker.py:200-204 | the count is zero exactly when no location is of the nesting class |
| Policy.LastOfClass | src/popy/pop_maker.py:201-203 | the remembered mother location is of the nesting class |
| Policy.LastOfClassSpec | src/popy/pop_maker.py:201-203 | there is no mother exactly when no location is of the nesting class; otherwise the mother is one of them and every later location is of another class |
| Policy.MotherGroupIdCases | src/popy/pop_maker.py:192-218 | the mother id is "None" exactly when the class does not nest or no location of the nesting class was joined; otherwise it is `group_value-group_id` of the last such location |
| Policy.PrefixedValueDeterminesMother | src/popy/pop_maker.py:234-237 | a prefixed group value determines its mother id and split value when the split value holds no dash |
| Policy.AdmittedBy | src/popy/pop_maker.py:478-485 | an agent is admitted by some melted class exactly when one of their filters accepts it |
| Policy.MeltAffiliated | src/popy/pop_maker.py:476-485 | the melting class's affiliated agents are exactly the listed agents that some melted class admits |
| Policy.MeltAffiliatedCount | src/popy/pop_maker.py:476-485 | an agent occurs in the concatenation once per listing and per melted class that admits it |
| Policy.ClassAffiliated | src/popy/pop_maker.py:469-485 | without melting, exactly the filter-passers with their multiplicities; with melting, the concatenation of each melted class's filter-passers |
| Grouping.Cluster | src/popy/pop_maker.py:274-277 | a cluster holds exactly the agents with that stick key, each as often as listed |
| Grouping.KeyedIn | src/popy/pop_maker.py:273-277 | the agents whose key is among the handled keys, with their multiplicities |
| Grouping.KeyedInStep | src/popy/pop_maker.py:273-277 | handling one more key adds exactly that key's cluster |
| Grouping.KeyedInBounds | src/popy/pop_maker.py:268-273 | no handled key selects nobody; all keys select every agent |
| Grouping.FirstFit | src/popy/pop_maker.py:281-296 | the chosen group is the first with room for the whole cluster where every member passes `find`; no group when none qualifies |
| Grouping.MinIndex | src/popy/pop_maker.py:302-306 | the chosen group is a smallest one, and the first of the smallest |
| Grouping.AddAll | src/popy/pop_maker.py:291-293 | the probe location holds the old members and the added agents, without duplicates |
| Grouping.PlaceCluster | src/popy/pop_maker.py:279-317 | a cluster goes to the first accepting group; failing that, to a smallest group when overcrowding is allowed and the target is reached; failing that, into a new group of its own with a fresh probe |
| Grouping.PlacedFlatten | src/popy/pop_maker.py:279-317 | placing a cluster adds exactly its agents to the groups |
| Grouping.ClosedExtend | src/popy/pop_maker.py:291-292 | a group holding whole clusters still does after a whole cluster is added |
| Grouping.PlaceClusterKeeps | src/popy/pop_maker.py:279-317 | placing a cluster keeps every group whole-cluster and within `size` (unless it is one cluster); with overcrowding, no more groups than the target |
| Grouping.ShuffleKeeps | src/popy/pop_maker.py:319 | shuffling the groups keeps their members and their number |
| Grouping.EmptyPacked | src/popy/pop_maker.py:269 | the single empty group is a packing of no agents |
| Grouping.PackedStep | src/popy/pop_maker.py:273-317 | each pass of the key loop keeps the packing invariant |
| Grouping.PackedShuffled | src/popy/pop_maker.py:319-320 | after all keys, any order of the groups is a packing of all agents |
| Grouping.GetGroups | src/popy/pop_maker.py:254-320 | every agent lands in exactly one group, as often as listed; agents sharing a key land together; without overcrowding, a group exceeds `size` only when it holds exactly one cluster; with overcrowding, at most the target number of groups |
| Grouping.PackingPermuted | src/popy/pop_maker.py:330-331 | packing a reordering of the agents is packing the agents: the shuffled list from the group-value lookup packs as the list itself would |
| Melting.Melt | src/popy/pop_maker.py:397-415 | the merged list has the longest list's length with `multi_melt` and the shortest's without; position `i` holds each class's contribution there, in class order |
| Melting.PickInMelted | src/popy/pop_maker.py:405-413 | each class's contribution at a position appears whole in the merged group there |
| Melting.MeltedFrom | src/popy/pop_maker.py:405-413 | every member of a merged group comes from some group of some class |
| Melting.MultiMeltCovers | src/popy/pop_maker.py:399-408 | with `multi_melt`, every group of every class appears whole in the merged group at its own position |
| Melting.PlainMeltReached | src/popy/pop_maker.py:409-413 | without `multi_melt`, where every list reaches a position, the merged group there is the union of the groups at that position |
| Melting.PlainMeltPosition | src/popy/pop_maker.py:399-413 | without `multi_melt`, every merged group is the union of all classes' groups at its position |
| Bipartite.ViewsPartition | src/popy/model.py:55-77 | the agent view and the location view split the nodes between them |
| Bipartite.AgentsOfLocation | src/popy/model.py:220-233 | fails for an unknown location; otherwise exactly the agent nodes joined to it |
| Bipartite.LocationsOfAgent | src/popy/model.py:235-248 | fails for an unknown agent; otherwise exactly the location nodes joined to it |
| Bipartite.NeighborsOfAgent | src/popy/model.py:266-296 | fails for an unknown agent; otherwise exactly the other agents sharing a location of the listed types (any type when the list is empty), each once, without the agent itself |
| Bipartite.NeighborsSymmetric | src/popy/model.py:266-296 | b is a neighbour of a exactly when a is a neighbour of b |
| Bipartite.ObjectsBetween | src/popy/model.py:299-323 | fails for an unknown first endpoint, then an unknown second one, and exactly when the type list is given and empty; otherwise a node is returned exactly when it is the middle of a path of length at most 2 between them and, with a type list, is a node of a listed type |
| Bipartite.BetweenAgents | src/popy/model.py:325-340 | between two agents lie exactly the locations both belong to |
| Bipartite.BetweenLocations | src/popy/model.py:342-357 | between two locations lie exactly the agents belonging to both |
| Bipartite.BetweenAgentAndLocation | src/popy/model.py:299-323 | between an agent and a location lies only the location itself, when the agent belongs to it |
| PopyModel.Detach | src/popy/model.py:162-163 | removing a node drops exactly its incident edges and keeps the other weights |
| PopyModel.Model.constructor | src/popy/model.py:26-37 | a new graph has no nodes and no edges |
| PopyModel.Model.Agents | src/popy/model.py:55-65 | the agent view holds exactly the nodes tagged as agents, so every edge's agent end and no location |
| PopyModel.Model.Locations | src/popy/model.py:67-77 | the location view holds exactly the nodes tagged as locations, so every edge's location end and no agent |
| PopyModel.Model.AddAgent | src/popy/model.py:79-89 | a new id becomes an agent node (tag 0); a known id changes nothing |
| PopyModel.Model.AddAgents | src/popy/model.py:91-98 | every listed id becomes a node; nodes that existed are unchanged; new nodes are agents |
| PopyModel.Model.AddLocation | src/popy/model.py:100-110 | a new id becomes a location node (tag 1); a known id changes nothing |
| PopyModel.Model.AddLocations | src/popy/model.py:112-119 | every listed id becomes a node; nodes that existed are unchanged; new nodes are locations |
| PopyModel.Model.AddAgentToLocation | src/popy/model.py:121-152 | fails for an unknown location, then for an unknown agent; otherwise the edge holds the given weight, 1 for none, overwriting an earlier one |
| PopyModel.Model.RemoveNode | src/popy/model.py:154-163 | the node and its incident edges are gone and nothing else changes; an unknown id changes nothing |
| PopyModel.Model.RemoveAgent | src/popy/model.py:154-163 | the agent and its memberships are gone and nothing else changes; an unknown id changes nothing |
| PopyModel.Model.RemoveAgents | src/popy/model.py:165-172 | the listed agents and their memberships are gone and every other node and weight is unchanged |
| PopyModel.Model.RemoveLocation | src/popy/model.py:174-183 | the location and its memberships are gone and nothing else changes; an unknown id changes nothing |
| PopyModel.Model.RemoveLocations | src/popy/model.py:185-192 | the listed locations and their memberships are gone and every other node and weight is unchanged |
| PopyModel.Model.RemoveAgentFromLocation | src/popy/model.py:194-218 | fails for an unknown location, then for an unknown agent; otherwise no edge joins them afterwards and every other edge is unchanged |
| PopyModel.Model.AgentsOfLocation | src/popy/model.py:220-233 | fails for an unknown location; otherwise exactly the agents joined to it |
| PopyModel.Model.LocationsOfAgent | src/popy/model.py:235-248 | fails for an unknown agent; otherwise exactly the locations it is joined to |
| PopyModel.Model.NeighborsOfAgent | src/popy/model.py:250-296 | fails for an unknown agent; otherwise the agents sharing a location of the listed types, each once, never the agent itself |
| PopyModel.Model.ObjectsBetweenObjects | src/popy/model.py:299-323 | fails for an unknown first endpoint, then an unknown second one, and exactly when the type list is given and empty; otherwise exactly the nodes that are the middle of a path of length at most 2 between them, restricted to the listed types when a list is given |
| PopyModel.Model.SetWeight | src/popy/model.py:359-367 | fails without an edge; otherwise only that edge's weight changes, to the given weight or 1 for none |
| PopyModel.Model.GetWeight | src/popy/model.py:369-379 | the stored weight of an existing edge; fails without an edge |
| Env.Environment.constructor | src/popy/environment.py:16-23 | a new graph has no nodes and no edges |
| Env.Environment.AddAgent | src/popy/environment.py:25-35 | a new id becomes an agent node; a known id changes nothing |
| Env.Environment.AddLocation | src/popy/environment.py:37-47 | a new id becomes a location node; a known id changes nothing |
| Env.Environment.AddAgentToLocation | src/popy/environment.py:49-73 | fails for an unknown location, then for an unknown agent; a new edge takes the given attributes; an existing edge keeps its attributes |
| Env.Environment.RemoveAgent | src/popy/environment.py:75-84 | the agent and its memberships are gone and every other edge keeps its attributes |
| Env.Environment.RemoveLocation | src/popy/environment.py:86-95 | the location and its memberships are gone and every other edge keeps its attributes |
| Env.Environment.RemoveAgentFromLocation | src/popy/environment.py:97-117 | fails for an unknown endpoint; otherwise no edge joins them afterwards and nothing else changes |
| Env.Environment.AgentsOfLocation | src/popy/environment.py:119-132 | fails for an unknown location; otherwise exactly the agent nodes joined to it |
| Env.Environment.LocationsOfAgent | src/popy/environment.py:134-147 | fails for an unknown agent; otherwise exactly the location nodes joined to it |
| Env.Environment.NeighborsOfAgent | src/popy/environment.py:149-174 | fails for an unknown agent; otherwise exactly the co-located agents, each once, without the agent itself |
| Env.Environment.SetEdgeAttribute | src/popy/environment.py:176-185 | fails without an edge; otherwise only the named attribute of that one edge changes |
| Contact.Agent.constructor | src/location.py:67-68 | a new agent has its id and belongs to no location |
| Contact.FullGraph.constructor | src/location.py:10-12 | a new contact graph is empty |
| Contact.FullGraph.AddAgent | src/location.py:14-19 | the node is added or re-attributed and joined to every other node; the graph stays complete |
| Contact.FullGraph.Agents | src/location.py:21-26 | exactly the nodes of the graph; two distinct members are always adjacent, and only members are |
| Contact.FullGraph.RemoveAgent | src/location.py:28-29 | fails for a non-member; otherwise the node and its edges are gone and the graph stays complete |
| Contact.FullGraph.Neighbors | src/location.py:31-37 | fails for a non-member; otherwise exactly the other members |
| Contact.Location.constructor | src/location.py:40-46 | a new location has an empty graph and no visitors |
| Contact.Location.Default | src/location.py:85-89 | the default hooks admit every agent to join and to visit |
| Contact.Location.Agents | src/location.py:71-73 | exactly the nodes of the location's contact graph, as many as the visitor counter |
| Contact.Location.AddAgent | src/location.py:51-68 | a refused or present agent changes nothing; otherwise it joins, the counter grows by one, and the location is recorded on the agent at most once |
| Contact.Location.RemoveAgent | src/location.py:75-77 | fails for a non-member with the counter unchanged; otherwise the member is gone and the counter shrinks by one |
| Contact.Location.Neighbors | src/location.py:82-83 | fails for a non-member; otherwise the other members, one fewer than the counter |
| Contact.Location.EdgeWeight | src/location.py:79-80 | the default contact weight is 1 |
| Contact.Location.GroupBy | src/location.py:91-92 | the default grouping key is none |
| Contact.Location.Visit | src/location.py:94-100 | the visit weight becomes the modifier applied to it only when `can_visit` holds and a modifier is set; otherwise nothing changes; a non-member fails |
| Engine.Prefixed | src/popy/pop_maker.py:232-237 | each value is replaced by the mother id, a dash and the value, keeping the order |
| Engine.GroupValueShape | src/popy/pop_maker.py:229-237 | with nesting, every group value is the mother id, a dash and one of the split values; without nesting, exactly the split values |
| Engine.WithValue | src/popy/pop_maker.py:328-331 | exactly the listed agents whose stored group values contain the value |
| Engine.SubMembers | src/popy/pop_maker.py:532-540 | exactly the group members whose subsplit list contains the value, each as often as in the group |
| Engine.JoinedViaFrom | src/popy/pop_maker.py:552-553 | every membership an agent gains comes from a created location it is a member of |
| Engine.GroupsFrom | src/popy/pop_maker.py:504-507 | packed groups hold only the agents they were packed from |
| Engine.ReadyValueAgents | src/popy/pop_maker.py:323-333 | once the group values are stored, the agents found by the lookup are, up to order, the affiliated agents whose group values contain the value |
| Engine.GroupMemberCarries | src/popy/pop_maker.py:495-507 | without melting, every member of a group value's groups is an affiliated agent that has that group value |
| Engine.AgentPlaced | src/popy/pop_maker.py:494-562 | without melting, each admitted agent is, for each of its group values, in one of that value's groups, and a member of the location of every subgroup value that group gives it |
| Engine.MembersShareMother | src/popy/pop_maker.py:229-237 | without melting, two members of one location have the same mother id when their split values hold no dash: nested locations do not mix members of different mother locations |
| Engine.CreatedPlacesAgent | src/popy/pop_maker.py:459-562 | after all passes, each listed agent a non-melting class admits is, for each of its group values, in a group of that value and a member of a created location of the class with that value, for every subgroup value the group gives it |
| Engine.GatheredAll | src/popy/pop_maker.py:382-394 | after all split values, a melted class groups exactly its admitted agents that have a split value |
| Engine.JoinedViaConcat | src/popy/pop_maker.py:552-553 | memberships gained from two batches of locations are those of the first followed by those of the second |
| Engine.LastOfClassConcat | src/popy/pop_maker.py:201-203 | the last location of a class in a concatenation is the one in the second part when it has one |
| Engine.LabelledTrans | src/popy/pop_maker.py:555-560 | writing the descriptors of one batch, then of another, writes those of both in order |
| Engine.OneLocation | src/popy/pop_maker.py:552-560 | filling one location adds it to its members and stores its descriptor on each |
| Engine.ValuesOfSpec | src/popy/pop_maker.py:529-548 | a value is a subgroup value of the created locations exactly when one of them carries it |
| Engine.ExtendedTrans | src/popy/pop_maker.py:552-553 | memberships added in two steps are those of the concatenated batches |
| Engine.ResetLookup | src/popy/pop_maker.py:451-455 | after the reset, each listed agent holds None under every class name, and every other attribute is unchanged |
| Engine.ClassOf | src/popy/pop_maker.py:156-159 | without a class dictionary, the default class; with one, a class the dictionary lists |
| Engine.RowsError | src/popy/pop_maker.py:155-167 | there is no error exactly when every row's class lookup succeeds and no column is called `id` |
| Engine.AgentFromRow | src/popy/pop_maker.py:155-167 | a failed class lookup changes nothing; otherwise a fresh agent of the row's class is registered, then a column called `id` fails; otherwise every column is stored on the agent and nothing else changes |
| Engine.AgentsFromRows | src/popy/pop_maker.py:150-167 | fails exactly with the first row's error; otherwise one agent per row with consecutive ids, of its row's class, with every cell stored |
| Engine.AddMembers | src/popy/pop_maker.py:552-560 | each member joins the location once, even when listed twice, and stores its descriptor under the class name; nothing else changes |
| Engine.PopMaker.constructor | src/popy/pop_maker.py:19-36 | a new maker has no agent list and no location list; it works on the given model (its id counter, agent nodes, memberships and attributes), or on a new empty model when none is given |
| Engine.PopMaker.GetMotherGroupId | src/popy/pop_maker.py:192-218 | the mother id of the agent's memberships, with the warning raised exactly when more than one location of the nesting class was joined |
| Engine.PopMaker.GetSplitValues | src/popy/pop_maker.py:221-244 | the result is the union of the listed agents' group values; each listed agent stores its own list, a subset of the result; other agents' stored values are unchanged |
| Engine.PopMaker.GetGroupValueAgents | src/popy/pop_maker.py:323-333 | a permutation of the listed agents whose stored values contain the group value |
| Engine.PopMaker.MeltClassGroups | src/popy/pop_maker.py:362-395 | one melted class's groups hold exactly its admitted agents of the mother group that have a split value |
| Engine.PopMaker.GatherGroups | src/popy/pop_maker.py:381-393 | the groups of all split values together hold exactly the agents with one of those values |
| Engine.PopMaker.MeltForMother | src/popy/pop_maker.py:359-415 | the groups of each melted class hold exactly the mother group's agents that class admits and gives a split value; the result is the position-by-position merge of those lists, with the longest (multi_melt) or shortest length; every member is an admitted agent of the mother group |
| Engine.PopMaker.GetMeltedGroups | src/popy/pop_maker.py:336-417 | for a non-empty list, the result is the merge of the melted classes' groups over the listed agents of one mother id that some listed agent has (the last one handled); every member is a listed, admitted agent, and all members share one mother id |
| Engine.PopMaker.BuildLocation | src/popy/pop_maker.py:543-562 | a location with the next fresh id, its class, values and ids; its members join it and store its descriptor |
| Engine.PopMaker.CreateSubLocations | src/popy/pop_maker.py:515-562 | one location per distinct subsplit value of the group, numbered `j`, holding exactly the members whose subsplit lists that value; fresh consecutive ids |
| Engine.PopMaker.AddSubLocation | src/popy/pop_maker.py:529-562 | one pass of the subsplit loop keeps the sub-location invariant |
| Engine.PopMaker.PlaceGroups | src/popy/pop_maker.py:514-562 | the locations have consecutive fresh ids; each is of the class and group value, numbered by its group `i`, non-empty, and holds exactly the members of group `i` whose subsplit lists its subgroup value; every subgroup value a member of a group is given has its location, and no (group, subgroup value) pair has two; memberships and descriptors are added in order |
| Engine.PopMaker.PlaceGroup | src/popy/pop_maker.py:515-562 | one pass of the group loop extends that state from the first `i` groups to the first `i + 1` |
| Engine.PopMaker.GroupsOf | src/popy/pop_maker.py:495-512 | the groups hold only listed agents the class admits; without melting, they are a packing (every agent once per listing, clusters whole, `size` or the target count kept) of exactly the affiliated agents whose group values contain the group value |
| Engine.PopMaker.CreateClassLocations | src/popy/pop_maker.py:460-562 | there is a grouping for exactly the group values of the affiliated agents; each value's groups are those `GroupsOf` states; every location fills one slot (group value, group, subgroup value) of that grouping, each slot a member is given is filled, and none twice; every location is non-empty and holds only listed agents the class admits; memberships and descriptors are added in order |
| Engine.PopMaker.PlaceValues | src/popy/pop_maker.py:494-562 | after the loop over the group values, the grouping has exactly those values as keys and the class state holds |
| Engine.PopMaker.PlaceValue | src/popy/pop_maker.py:494-562 | one pass of the group-value loop adds that value's groups to the grouping, as `GroupsOf` states them, and their locations, keeping the class state |
| Engine.PopMaker.CreateEachClass | src/popy/pop_maker.py:459-562 | the created locations are those of one pass per class, in class order; each pass did for its class, over a reordering of the list and the memberships left by the earlier passes, what `CreateClassLocations` states; every location is sound with consecutive fresh ids; the agent list is only permuted |
| Engine.PopMaker.CreateClassRun | src/popy/pop_maker.py:459-562 | one pass of the class loop adds one pass to that state |
| Engine.PopMaker.CreateLocations | src/popy/pop_maker.py:419-593 | fails with `NoAgents` exactly when there is no agent list (the other failures of the source are listed under Left out); otherwise the locations are the kept ones followed by the created ones, which are those of one pass per class as `CreateEachClass` states, memberships and descriptors are added in order after the reset, and the temporary values of the listed agents are gone |
| Engine.PopMaker.BuildAll | src/popy/pop_maker.py:451-587 | the reset followed by every class's locations, as `CreateEachClass` states them, then no listed agent keeps a temporary value |
| Engine.PopMaker.DropScratch | src/popy/pop_maker.py:584-587 | the listed agents' temporary values are gone and every other agent keeps its own |
| Engine.PopMaker.NewAgent | src/popy/agent.py:22-31 | a new agent takes the next id and is registered in the environment with its class |
| Engine.PopMaker.CountedAgents | src/popy/pop_maker.py:169-171 | `n` agents of the default class, none for a negative count, with consecutive fresh ids |
| Engine.PopMaker.CreateAgents | src/popy/pop_maker.py:115-186 | clearing drops all agents and their memberships; fails without records or a count, or with the first row's error; otherwise one agent per record (or `n`), consecutive ids, the records' cells stored, and the new agents appended to the maker's list |

## Left out

- `make`, `draw_sample`, `get_df_agents` and the plotting functions of
  `pop_maker.py`: table sampling and drawing, with floating point and
  random draws.
- `Model.sim_step`: the agentpy run loop, whose hooks are not visible here.
- `popy.utils`, agentpy's `AgentList` and `LocationList`, and
  `popy.Location`: these are not part of this model. Lists become sequences
  or sets of ids. A class name stands for `_get_cls_as_str`, and the
  `isinstance` test of nesting is equality of class names.
- Hooks are functions of the agent's id, and `round_function` is a parameter
  of the location class.
- Hook answers are compared by their text form. Python keeps `1` and `"1"`
  apart among the split values without nesting
  (`src/popy/pop_maker.py:226-242`) and among the subgroup values
  (`src/popy/pop_maker.py:518-526`); the model merges them into one group
  value or one subgroup value. With nesting the source joins the values
  into text too, so there the two agree.
- Policy.GroupTarget: `size` is a positive integer. The source also takes a
  negative `size`, and a `size` of zero when `n_locations` is set (the
  division at `src/popy/pop_maker.py:262` is then never reached). Only a
  zero `size` without `n_locations` fails there. These sizes are not
  modelled.
- Grouping.GetGroups: for the same reason, packings under a zero or
  negative `size` are not modelled. Under such a size no group ever has
  room, so every cluster would open a new group or overcrowd one.
- `find` and `subsplit` take the probe's members, or the group, as an extra
  argument. Hooks that read other location attributes are not modelled.
- Created locations join their members without asking `can_affiliate`, as
  the default hook admits everyone. The membership graph and the contact
  graph of a created location are summed up in the maker's membership
  record.
- `setup()`, `do_this_after_creation()`, the temporary model that holds the
  agent list during `create_locations`, and the deletion of `group_agents`:
  these only call user hooks or drop scratch data.
- `warnings.warn` becomes the `warned` flag of `GetMotherGroupId`.
- Engine.PopMaker.CreateLocations: the shuffle of a caller-supplied agent
  list is not visible after the call, since Python shuffles that list in
  place. Only the maker's own list is reported as permuted.
- Engine.PopMaker.CreateLocations: with `clear_locations`, location nodes
  leave the environment, so every membership is forgotten. The maker keeps
  no separate record of location nodes.
- Engine.PopMaker.constructor: `seed` and `self.rng` are not modelled. No
  shuffle uses them: the shuffles draw from the global `random`, which the
  model replaces by arbitrary choices. The given model must have handed out
  only ids below its counter, as agentpy's counter guarantees.
- Engine.PopMaker.GetMotherGroupId: for an agent that is no longer an
  agent node of the environment (a caller-supplied list kept across
  `create_agents(clear_agents=True)`), the source raises `NetworkXError`
  when a nesting class reads the agent's locations
  (`src/popy/pop_maker.py:200`, `src/popy/agent.py:61`,
  `src/popy/environment.py:143`). The model sees no membership and returns
  "None". Engine.PopMaker.GetSplitValues (with nesting),
  Engine.PopMaker.GetMeltedGroups (`src/popy/pop_maker.py:343-345`) and
  Engine.PopMaker.CreateLocations inherit this. When the joining of a
  created location reaches the environment, such an agent also meets its
  unknown-agent error (`src/popy/environment.py:68-70`); the model records
  the membership.
- Engine.PopMaker.CreateLocations: besides the missing agent list, the
  source can fail with `UnboundLocalError` (`src/popy/pop_maker.py:417`,
  reached through `src/popy/pop_maker.py:509`) for a melting class; the
  model returns no groups there and does not fail (next line).
- Engine.PopMaker.GetMeltedGroups: for an empty agent list, the source
  raises `UnboundLocalError` at `src/popy/pop_maker.py:417` because the
  result is never bound. The model returns no groups. `create_locations`
  can reach this case (see the quirk list above).
- Engine.PopMaker.GroupsOf and Engine.PopMaker.CreateClassLocations: for a
  melting class, the groups are only stated to hold listed agents the class
  admits. The temporary values the group-value lookup reads were
  overwritten by the melted classes' own split values, so which agents the
  lookup finds is not tied to the class's group values. The shape of the
  merge is stated on Engine.PopMaker.GetMeltedGroups.
- Engine.PopMaker.CreateSubLocations: the number of locations is stated
  through the distinct subgroup values, equal to the set of the members'
  values, not as a count.
- Engine.PopMaker.GetGroupValueAgents, Grouping.GetGroups and
  Engine.PopMaker.CreateEachClass: the random order is an arbitrary
  permutation, not a uniform one.
- PopyModel.Model.SetWeight: weights are reals; floating-point rounding is
  not modelled.
- PopyModel.Model.AddAgentToLocation: the extra keyword arguments, which
  the source stores as edge attributes (`src/popy/model.py:126`,
  `src/popy/model.py:151`), are not modelled. The model's edges carry only
  their weight. `Environment` keeps edge attributes and models them.
- `locations_between_agents` and `agents_between_locations`: they wrap
  `_objects_between_objects` in a list type. Their content is stated by
  Bipartite.BetweenAgents and Bipartite.BetweenLocations.
- Graph ids: an id passed as an agent is assumed not to be a location node,
  and the reverse. This is what the type annotations of the source promise.
