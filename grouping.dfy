/** `_get_groups`: packing the agents of one group value into location
    groups. Agents sharing a stick-together key form a cluster; clusters are
    placed first-fit into the groups, subject to the class's `size` and its
    `find` check, and a cluster that fits nowhere either opens a new group or,
    with overcrowding allowed and enough groups open, joins a smallest one. */
module Grouping {
  import opened Common
  import opened Policy

  /** All agents (with repetitions) whose stick-together key is `k`, in input order. */
  function Cluster(c: LocationClass, agents: seq<Id>, k: Val): (r: seq<Id>)
    ensures forall a :: a in r <==> a in agents && StickKey(c, a) == k
    ensures forall a :: multiset(r)[a] == if StickKey(c, a) == k then multiset(agents)[a] else 0
  {
    Filter(agents, a => StickKey(c, a) == k)
  }

  /** The agents whose key is one of `done`, in input order. */
  function KeyedIn(c: LocationClass, agents: seq<Id>, done: set<Val>): (r: seq<Id>)
    ensures forall a :: multiset(r)[a] == if StickKey(c, a) in done then multiset(agents)[a] else 0
  {
    Filter(agents, a => StickKey(c, a) in done)
  }

  /** The distinct stick-together keys of the agents. */
  function Keys(c: LocationClass, agents: seq<Id>): set<Val>
  {
    set a | a in agents :: StickKey(c, a)
  }

  /** The room test: `size` is unset or the group has room for the whole cluster. */
  predicate HasRoom(c: LocationClass, group: seq<Id>, cluster: seq<Id>)
  {
    c.size.None? || c.size.value - |group| >= |cluster|
  }

  /** Every member of the cluster passes `find` on the probe location. */
  predicate AllFind(c: LocationClass, probe: seq<Id>, cluster: seq<Id>)
  {
    forall i :: 0 <= i < |cluster| ==> c.find(probe, cluster[i])
  }

  predicate Accepts(c: LocationClass, group: seq<Id>, probe: seq<Id>, cluster: seq<Id>)
  {
    HasRoom(c, group, cluster) && AllFind(c, probe, cluster)
  }

  /** The first group that accepts the cluster, if any. */
  function FirstFit(c: LocationClass, groups: seq<seq<Id>>, probe: seq<Id>, cluster: seq<Id>): (r: Option<nat>)
    ensures r.Some? ==> r.value < |groups| && Accepts(c, groups[r.value], probe, cluster)
    ensures r.Some? ==> forall j :: 0 <= j < r.value ==> !Accepts(c, groups[j], probe, cluster)
    ensures r.None? ==> forall j :: 0 <= j < |groups| ==> !Accepts(c, groups[j], probe, cluster)
  {
    if groups == [] then None
    else if Accepts(c, groups[0], probe, cluster) then Some(0)
    else
      match FirstFit(c, groups[1..], probe, cluster)
      case None => None
      case Some(i) => Some(i + 1)
  }

  /** The first of the smallest groups (the head of a stable sort by length). */
  function MinIndex(groups: seq<seq<Id>>): (r: nat)
    requires |groups| > 0
    ensures r < |groups|
    ensures forall j :: 0 <= j < |groups| ==> |groups[r]| <= |groups[j]|
    ensures forall j :: 0 <= j < r ==> |groups[r]| < |groups[j]|
  {
    if |groups| == 1 then 0
    else
      var m := MinIndex(groups[1..]) + 1;
      if |groups[0]| <= |groups[m]| then 0 else m
  }

  /** Adding agents to a location: each agent not yet present is appended. */
  function AddAll(probe: seq<Id>, agents: seq<Id>): (r: seq<Id>)
    ensures forall a :: a in r <==> a in probe || a in agents
    ensures (forall i, j :: 0 <= i < j < |probe| ==> probe[i] != probe[j]) ==>
      forall i, j :: 0 <= i < j < |r| ==> r[i] != r[j]
    decreases |agents|
  {
    if agents == [] then probe
    else AddAll(if agents[0] in probe then probe else probe + [agents[0]], agents[1..])
  }

  /** A group holds whole clusters only: with any member, it holds every
      agent that shares its key. */
  ghost predicate Closed(c: LocationClass, agents: seq<Id>, g: seq<Id>)
  {
    forall a, b :: a in g && b in agents && StickKey(c, b) == StickKey(c, a) ==> b in g
  }

  /** A group respects `size`, unless it is exactly one cluster (in any order). */
  ghost predicate WithinSize(c: LocationClass, agents: seq<Id>, g: seq<Id>)
  {
    c.size.None? || |g| <= c.size.value || (|g| > 0 && multiset(g) == multiset(Cluster(c, agents, StickKey(c, g[0]))))
  }

  /** `groups` are a packing of `agents` as `_get_groups` makes one: every
      agent in exactly one group (as often as it is listed), clusters kept
      whole, `size` respected unless overcrowding is allowed, and with
      overcrowding no more groups than the target count. */
  ghost predicate Packing(c: LocationClass, agents: seq<Id>, groups: seq<seq<Id>>)
  {
    |groups| >= 1 &&
    multiset(Flatten(groups)) == multiset(agents) &&
    (forall g :: g in groups ==> Closed(c, agents, g)) &&
    (!c.allowOvercrowding ==> forall g :: g in groups ==> WithinSize(c, agents, g)) &&
    (c.allowOvercrowding ==> |groups| <= Max(1, GroupTarget(c, |agents|)))
  }

  /** Whether groups pack a list depends only on which agents it holds and
      how often, not on their order. */
  lemma PackingPermuted(c: LocationClass, a1: seq<Id>, a2: seq<Id>, groups: seq<seq<Id>>)
    requires multiset(a1) == multiset(a2) && Packing(c, a1, groups)
    ensures Packing(c, a2, groups)
  {
    assert |a1| == |multiset(a1)| == |multiset(a2)| == |a2|;
    assert forall b :: b in a1 <==> b in a2 by {
      forall b ensures b in a1 <==> b in a2 {
        assert b in a1 <==> b in multiset(a1);
        assert b in a2 <==> b in multiset(a2);
      }
    }
    forall g | g in groups && |g| > 0
      ensures multiset(Cluster(c, a1, StickKey(c, g[0]))) == multiset(Cluster(c, a2, StickKey(c, g[0])))
    {
      var k := StickKey(c, g[0]);
      assert forall a :: multiset(Cluster(c, a1, k))[a] == multiset(Cluster(c, a2, k))[a];
    }
  }

  /** One step of the loop over stick-together keys: the cluster goes to
      the first accepting group (and onto the probe); failing that, to a
      smallest group when overcrowding is allowed and the target count is
      reached (the probe unchanged); failing that, into a new group of its
      own, which also gets a fresh probe holding just the cluster. */
  method PlaceCluster(c: LocationClass, groups: seq<seq<Id>>, probe: seq<Id>, cluster: seq<Id>, target: int)
    returns (groups': seq<seq<Id>>, probe': seq<Id>)
    requires |groups| > 0
    ensures FirstFit(c, groups, probe, cluster).Some? ==>
      var i := FirstFit(c, groups, probe, cluster).value;
      groups' == groups[i := groups[i] + cluster] && probe' == AddAll(probe, cluster)
    ensures FirstFit(c, groups, probe, cluster).None? && c.allowOvercrowding && |groups| >= target ==>
      var m := MinIndex(groups);
      multiset(groups') == multiset(groups[m := groups[m] + cluster]) && probe' == probe
    ensures FirstFit(c, groups, probe, cluster).None? && !(c.allowOvercrowding && |groups| >= target) ==>
      groups' == groups + [cluster] && probe' == AddAll([], cluster)
    ensures Placed(c, groups, probe, cluster, target, groups')
  {
    var i := 0;
    while i < |groups|
      invariant 0 <= i <= |groups|
      invariant forall j :: 0 <= j < i ==> !Accepts(c, groups[j], probe, cluster)
    {
      if Accepts(c, groups[i], probe, cluster) {
        return groups[i := groups[i] + cluster], AddAll(probe, cluster);
      }
      i := i + 1;
    }
    if c.allowOvercrowding && |groups| >= target {
      // sort by length, extend the head, shuffle: some smallest group grows
      var m := MinIndex(groups);
      groups' :| multiset(groups') == multiset(groups[m := groups[m] + cluster]);
      probe' := probe;
    } else {
      groups' := groups + [cluster];
      probe' := AddAll([], cluster);
    }
  }

  /** Extending one list extends the flattening by that much. */
  lemma FlattenExtendOne(groups: seq<seq<Id>>, i: nat, extra: seq<Id>)
    requires i < |groups|
    ensures multiset(Flatten(groups[i := groups[i] + extra])) == multiset(Flatten(groups)) + multiset(extra)
  {
    var g' := groups[i := groups[i] + extra];
    assert groups == groups[..i] + [groups[i]] + groups[i + 1..];
    assert g' == groups[..i] + [groups[i] + extra] + groups[i + 1..];
    FlattenConcat(groups[..i] + [groups[i]], groups[i + 1..]);
    FlattenConcat(groups[..i], [groups[i]]);
    FlattenConcat(groups[..i] + [groups[i] + extra], groups[i + 1..]);
    FlattenConcat(groups[..i], [groups[i] + extra]);
    FlattenSingle(groups[i]);
    FlattenSingle(groups[i] + extra);
  }

  /** Taking one more key adds exactly that key's cluster. */
  lemma KeyedInStep(c: LocationClass, agents: seq<Id>, done: set<Val>, k: Val)
    requires k !in done
    ensures multiset(KeyedIn(c, agents, done + {k})) == multiset(KeyedIn(c, agents, done)) + multiset(Cluster(c, agents, k))
  {
    var l, r := multiset(KeyedIn(c, agents, done + {k})), multiset(KeyedIn(c, agents, done)) + multiset(Cluster(c, agents, k));
    forall a ensures l[a] == r[a] {
    }
    assert l == r;
  }

  /** No key selects nothing; every key selects every agent. */
  lemma KeyedInBounds(c: LocationClass, agents: seq<Id>)
    ensures multiset(KeyedIn(c, agents, {})) == multiset{}
    ensures multiset(KeyedIn(c, agents, Keys(c, agents))) == multiset(agents)
  {
    var all := KeyedIn(c, agents, Keys(c, agents));
    forall a ensures multiset(all)[a] == multiset(agents)[a] {
      if a in agents {
        assert StickKey(c, a) in Keys(c, agents);
      }
    }
  }

  /** Reordering the groups keeps their members and their number. */
  lemma ShuffleKeeps(groups: seq<seq<Id>>, shuffled: seq<seq<Id>>)
    requires multiset(shuffled) == multiset(groups)
    ensures multiset(Flatten(shuffled)) == multiset(Flatten(groups))
    ensures forall g :: g in shuffled <==> g in groups
    ensures |shuffled| == |groups|
  {
    FlattenPermutation(shuffled, groups);
    assert forall g :: g in shuffled <==> g in multiset(groups);
    assert |shuffled| == |multiset(shuffled)| == |groups|;
  }

  /** The three outcomes of `PlaceCluster`, as one condition on the new groups. */
  ghost predicate Placed(c: LocationClass, groups: seq<seq<Id>>, probe: seq<Id>, cluster: seq<Id>, target: int,
                         groups': seq<seq<Id>>)
    requires |groups| > 0
  {
    var ff := FirstFit(c, groups, probe, cluster);
    (ff.Some? && groups' == groups[ff.value := groups[ff.value] + cluster]) ||
    (ff.None? && c.allowOvercrowding && |groups| >= target &&
     multiset(groups') == multiset(groups[MinIndex(groups) := groups[MinIndex(groups)] + cluster])) ||
    (ff.None? && !(c.allowOvercrowding && |groups| >= target) && groups' == groups + [cluster])
  }

  /** Placing a cluster adds exactly its agents to the groups. */
  lemma PlacedFlatten(c: LocationClass, groups: seq<seq<Id>>, probe: seq<Id>, cluster: seq<Id>, target: int,
                      groups': seq<seq<Id>>)
    requires |groups| > 0 && Placed(c, groups, probe, cluster, target, groups')
    ensures multiset(Flatten(groups')) == multiset(Flatten(groups)) + multiset(cluster)
  {
    var ff := FirstFit(c, groups, probe, cluster);
    if ff.Some? {
      FlattenExtendOne(groups, ff.value, cluster);
    } else if c.allowOvercrowding && |groups| >= target {
      FlattenExtendOne(groups, MinIndex(groups), cluster);
      FlattenPermutation(groups', groups[MinIndex(groups) := groups[MinIndex(groups)] + cluster]);
    } else {
      FlattenConcat(groups, [cluster]);
      FlattenSingle(cluster);
    }
  }

  /** A closed group extended by a whole cluster stays closed. */
  lemma ClosedExtend(c: LocationClass, agents: seq<Id>, g: seq<Id>, k: Val)
    requires Closed(c, agents, g)
    ensures Closed(c, agents, g + Cluster(c, agents, k))
  {
    var g' := g + Cluster(c, agents, k);
    forall a, b | a in g' && b in agents && StickKey(c, b) == StickKey(c, a) ensures b in g' {
      if a in g {
        assert b in g;
      }
    }
  }

  lemma PlaceClusterKeeps(c: LocationClass, agents: seq<Id>, groups: seq<seq<Id>>, probe: seq<Id>, k: Val, target: int,
                          groups': seq<seq<Id>>)
    requires |groups| > 0 && k in Keys(c, agents)
    requires forall g :: g in groups ==> Closed(c, agents, g)
    requires !c.allowOvercrowding ==> forall g :: g in groups ==> WithinSize(c, agents, g)
    requires c.allowOvercrowding ==> |groups| <= Max(1, target)
    requires Placed(c, groups, probe, Cluster(c, agents, k), target, groups')
    ensures |groups'| >= |groups|
    ensures forall g :: g in groups' ==> Closed(c, agents, g)
    ensures !c.allowOvercrowding ==> forall g :: g in groups' ==> WithinSize(c, agents, g)
    ensures c.allowOvercrowding ==> |groups'| <= Max(1, target)
  {
    var cluster := Cluster(c, agents, k);
    assert Closed(c, agents, cluster);
    var ff := FirstFit(c, groups, probe, cluster);
    if ff.Some? {
      var i := ff.value;
      var g := groups[i] + cluster;
      assert groups[i] in groups;
      ClosedExtend(c, agents, groups[i], k);
      assert forall x :: x in groups' ==> x in groups || x == g;
      if !c.allowOvercrowding && c.size.Some? {
        assert |g| <= c.size.value;
      }
    } else if c.allowOvercrowding && |groups| >= target {
      var m := MinIndex(groups);
      var g := groups[m] + cluster;
      var updated := groups[m := g];
      assert groups[m] in groups;
      ClosedExtend(c, agents, groups[m], k);
      assert forall x :: x in updated ==> x in groups || x == g;
      assert forall x :: x in groups' ==> x in multiset(updated);
      assert |groups'| == |multiset(groups')| == |multiset(updated)| == |groups|;
    } else {
      var a0 :| a0 in agents && StickKey(c, a0) == k;
      assert a0 in cluster;
      assert StickKey(c, cluster[0]) == k;
      assert multiset(cluster) == multiset(Cluster(c, agents, StickKey(c, cluster[0])));
      assert WithinSize(c, agents, cluster);
      assert forall x :: x in groups' ==> x in groups || x == cluster;
    }
  }

  /** What the loop over keys maintains once the keys in `done` are placed. */
  ghost predicate Packed(c: LocationClass, agents: seq<Id>, groups: seq<seq<Id>>, done: set<Val>, target: int)
  {
    |groups| >= 1 &&
    multiset(Flatten(groups)) == multiset(KeyedIn(c, agents, done)) &&
    (forall g :: g in groups ==> Closed(c, agents, g)) &&
    (!c.allowOvercrowding ==> forall g :: g in groups ==> WithinSize(c, agents, g)) &&
    (c.allowOvercrowding ==> |groups| <= Max(1, target))
  }

  /** The single empty group `_get_groups` starts from. */
  lemma EmptyPacked(c: LocationClass, agents: seq<Id>, target: int)
    ensures Packed(c, agents, [[]], {}, target)
  {
    KeyedInBounds(c, agents);
    FlattenSingle<Id>([]);
  }

  lemma PackedStep(c: LocationClass, agents: seq<Id>, groups: seq<seq<Id>>, probe: seq<Id>, done: set<Val>, k: Val,
                   target: int, groups': seq<seq<Id>>)
    requires Packed(c, agents, groups, done, target)
    requires k in Keys(c, agents) && k !in done
    requires Placed(c, groups, probe, Cluster(c, agents, k), target, groups')
    ensures Packed(c, agents, groups', done + {k}, target)
  {
    PlaceClusterKeeps(c, agents, groups, probe, k, target, groups');
    PlacedFlatten(c, groups, probe, Cluster(c, agents, k), target, groups');
    KeyedInStep(c, agents, done, k);
  }

  /** Once every key is placed, any order of the groups is a packing of all agents. */
  lemma PackedShuffled(c: LocationClass, agents: seq<Id>, groups: seq<seq<Id>>, target: int, shuffled: seq<seq<Id>>)
    requires Packed(c, agents, groups, Keys(c, agents), target)
    requires multiset(shuffled) == multiset(groups)
    ensures |shuffled| >= 1
    ensures multiset(Flatten(shuffled)) == multiset(agents)
    ensures forall g :: g in shuffled ==> Closed(c, agents, g)
    ensures !c.allowOvercrowding ==> forall g :: g in shuffled ==> WithinSize(c, agents, g)
    ensures c.allowOvercrowding ==> |shuffled| <= Max(1, target)
  {
    ShuffleKeeps(groups, shuffled);
    KeyedInBounds(c, agents);
  }

  /** `_get_groups`: the groups of one group value's agents, in arbitrary
      order. Every agent lands in exactly one group (as many times as it is
      listed), agents sharing a key land together, without overcrowding a
      group exceeds `size` only when it is a single cluster, and with
      overcrowding no more groups are opened than the target count. */
  method GetGroups(c: LocationClass, agents: seq<Id>) returns (groups: seq<seq<Id>>)
    ensures |groups| >= 1
    ensures multiset(Flatten(groups)) == multiset(agents)
    ensures forall g :: g in groups ==> Closed(c, agents, g)
    ensures !c.allowOvercrowding ==> forall g :: g in groups ==> WithinSize(c, agents, g)
    ensures c.allowOvercrowding ==> |groups| <= Max(1, GroupTarget(c, |agents|))
  {
    var target := GroupTarget(c, |agents|);
    var rest := Keys(c, agents);
    groups := [[]];
    var probe: seq<Id> := [];
    ghost var done: set<Val> := {};
    EmptyPacked(c, agents, target);
    while rest != {}
      invariant rest !! done && rest + done == Keys(c, agents)
      invariant Packed(c, agents, groups, done, target)
      decreases rest
    {
      var k :| k in rest;
      var groups', probe' := PlaceCluster(c, groups, probe, Cluster(c, agents, k), target);
      PackedStep(c, agents, groups, probe, done, k, target, groups');
      groups, probe := groups', probe';
      rest, done := rest - {k}, done + {k};
    }
    // random.shuffle(groups)
    var shuffled :| multiset(shuffled) == multiset(groups);
    PackedShuffled(c, agents, groups, target, shuffled);
    groups := shuffled;
  }
}
