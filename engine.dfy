/** `PopMaker`: creates agents from records and places them into the
    locations of a list of location classes. Agents and locations are ids;
    what agentpy keeps on agent objects (data attributes, the per-class
    descriptor, the temporary group values) and what the model's environment
    records (agent nodes, agent-location memberships) is the maker's state. */
module Engine {
  import opened Common
  import opened Policy
  import opened Grouping
  import opened Melting

  datatype MakerError =
    | NoAgents              // iterating an agent list that is None
    | IdColumn              // a record column called `id`
    | NoClassColumn         // the class column is unset or missing from a record
    | UnknownClass(key: Datum)  // the class column's value is not a key of the class dictionary
    | NoSource              // neither records nor a count

  /** A data frame: its column names and one map per row. */
  datatype Table = Table(columns: seq<string>, rows: seq<map<string, Datum>>)

  /** Every row holds a value for every column. */
  predicate Rectangular(t: Table)
  {
    forall i, col :: 0 <= i < |t.rows| && col in t.columns ==> col in t.rows[i]
  }

  // ----- functions of the maker's state -----

  /** The locations agent `a` belongs to, in joining order (`agent.locations`). */
  function JoinedOf(j: map<Id, seq<LocInfo>>, a: Id): seq<LocInfo>
  {
    if a in j then j[a] else []
  }

  /** `_get_mother_group_id` of agent `a` for a class nesting in `nest`. */
  function MotherOf(j: map<Id, seq<LocInfo>>, nest: Option<string>, a: Id): string
  {
    MotherGroupId(JoinedOf(j, a), nest)
  }

  /** Every value prefixed with the mother id and a dash. */
  function Prefixed(m: string, vs: seq<Val>): (r: seq<Val>)
    ensures |r| == |vs|
    ensures forall i :: 0 <= i < |vs| ==> r[i] == m + "-" + vs[i]
  {
    if vs == [] then [] else Prefixed(m, vs[..|vs| - 1]) + [m + "-" + vs[|vs| - 1]]
  }

  /** The group values `_get_split_values` stores on agent `a`: its split
      answer as a list, each value prefixed with the mother id when nesting. */
  function GroupValues(j: map<Id, seq<LocInfo>>, c: LocationClass, a: Id, nesting: bool): seq<Val>
  {
    if nesting then Prefixed(MotherOf(j, c.nest, a), AsList(c.split(a))) else AsList(c.split(a))
  }

  /** With nesting, each group value of an agent is its mother id, a dash and
      one of its split values; without nesting, exactly its split values. */
  lemma GroupValueShape(j: map<Id, seq<LocInfo>>, c: LocationClass, a: Id, nesting: bool, v: Val)
    ensures nesting ==> (v in GroupValues(j, c, a, nesting) <==>
      exists s :: s in AsList(c.split(a)) && v == MotherOf(j, c.nest, a) + "-" + s)
    ensures !nesting ==> (v in GroupValues(j, c, a, nesting) <==> v in AsList(c.split(a)))
  {
    if nesting {
      var vs := AsList(c.split(a));
      var r := GroupValues(j, c, a, nesting);
      if v in r {
        var i :| 0 <= i < |r| && r[i] == v;
        assert vs[i] in vs;
      }
    }
  }

  /** The listed agents whose stored group values contain `gv`, in list order. */
  function WithValue(t: map<Id, seq<Val>>, agents: seq<Id>, gv: Val): (r: seq<Id>)
    ensures forall a :: a in r <==> a in agents && a in t && gv in t[a]
    ensures forall a :: multiset(r)[a] == if a in t && gv in t[a] then multiset(agents)[a] else 0
  {
    Filter(agents, a => a in t && gv in t[a])
  }

  /** The distinct subsplit values of a group's members. */
  function SubValues(c: LocationClass, group: seq<Id>): set<Val>
  {
    set a, v | a in group && v in AsList(c.subsplit(group, a)) :: v
  }

  /** The group's members whose subsplit answer contains `sv`, in group order. */
  function SubMembers(c: LocationClass, group: seq<Id>, sv: Val): (r: seq<Id>)
    ensures forall a :: a in r <==> a in group && sv in AsList(c.subsplit(group, a))
    ensures forall a :: multiset(r)[a] == if sv in AsList(c.subsplit(group, a)) then multiset(group)[a] else 0
  {
    Filter(group, a => sv in AsList(c.subsplit(group, a)))
  }

  /** The records of the listed locations that agent `a` is a member of, in order. */
  function JoinedVia(locs: seq<Loc>, a: Id): seq<LocInfo>
  {
    if locs == [] then []
    else JoinedVia(locs[..|locs| - 1], a) + (if a in locs[|locs| - 1].members then [locs[|locs| - 1].info] else [])
  }

  /** Each record agent `a` joined through `locs` is that of a listed
      location it is a member of. */
  lemma {:induction false} JoinedViaFrom(locs: seq<Loc>, a: Id)
    ensures forall l :: l in JoinedVia(locs, a) ==> exists k :: 0 <= k < |locs| && locs[k].info == l && a in locs[k].members
  {
    if locs != [] {
      var init := locs[..|locs| - 1];
      JoinedViaFrom(init, a);
      assert forall k :: 0 <= k < |init| ==> init[k] == locs[k];
    }
  }

  /** Agent `a` is a member of one of the listed locations. */
  predicate Member(locs: seq<Loc>, a: Id)
  {
    exists k :: 0 <= k < |locs| && a in locs[k].members
  }

  /** The class admits the agent: its own filter, or for a melting class the
      filter of one of the classes it melts. */
  predicate Admits(c: LocationClass, a: Id)
  {
    if c.melt == [] then c.filter(a) else AdmittedBy(c.melt, a) > 0
  }

  /** A location created for class `c` from the agent list: of that class,
      not empty, and holding only listed agents the class admits. */
  predicate Sound(c: LocationClass, list: seq<Id>, l: Loc)
  {
    l.info.cls == c.name && |l.members| > 0 &&
    forall x :: x in l.members ==> x in list && Admits(c, x)
  }

  /** Each group of `gs` holds only agents of `src`. */
  lemma GroupsFrom(gs: seq<seq<Id>>, src: seq<Id>)
    requires multiset(Flatten(gs)) == multiset(src)
    ensures forall g, x :: g in gs && x in g ==> x in src
  {
    forall g, x | g in gs && x in g ensures x in src {
      InFlatten(gs, x);
      assert x in multiset(Flatten(gs));
    }
  }

  /** The groups gathered so far for one melted class: the agents grouped
      are those of `maff` with one of the handled split values. */
  ghost predicate Gathered(mc: LocationClass, maff: seq<Id>, acc: seq<seq<Id>>, done: set<Val>)
  {
    (forall x :: x in Flatten(acc) <==> x in maff && exists v :: v in done && v in AsList(mc.split(x))) &&
    (forall g, x :: g in acc && x in g ==> x in maff)
  }

  lemma GatheredStep(mc: LocationClass, maff: seq<Id>, acc: seq<seq<Id>>, done: set<Val>, v: Val,
                     gva: seq<Id>, gs: seq<seq<Id>>)
    requires Gathered(mc, maff, acc, done)
    requires forall a :: a in gva <==> a in maff && v in AsList(mc.split(a))
    requires multiset(Flatten(gs)) == multiset(gva)
    ensures Gathered(mc, maff, acc + gs, done + {v})
  {
    GroupsFrom(gs, gva);
    FlattenConcat(acc, gs);
    forall x ensures x in Flatten(gs) <==> x in gva {
      assert x in Flatten(gs) <==> x in multiset(Flatten(gs));
    }
  }

  /** After every split value is handled, an agent is grouped exactly when it
      is in `maff` and has a split value; shuffling the groups keeps that. */
  lemma GatheredAll(mc: LocationClass, maff: seq<Id>, acc: seq<seq<Id>>, values: set<Val>, groups: seq<seq<Id>>)
    requires Gathered(mc, maff, acc, values)
    requires forall a :: a in maff ==> forall v :: v in AsList(mc.split(a)) ==> v in values
    requires multiset(groups) == multiset(acc)
    ensures forall x :: x in Flatten(groups) <==> x in maff && AsList(mc.split(x)) != []
    ensures forall g, x :: g in groups && x in g ==> x in maff
  {
    ShuffleKeeps(acc, groups);
    forall x ensures x in Flatten(groups) <==> x in Flatten(acc) {
      assert x in Flatten(groups) <==> x in multiset(Flatten(groups));
      assert x in Flatten(acc) <==> x in multiset(Flatten(acc));
    }
    forall x | x in maff && AsList(mc.split(x)) != [] ensures x in Flatten(acc) {
      var s := AsList(mc.split(x));
      assert s[0] in values;
    }
  }

  /** The listed agents whose mother id is `m`, in list order. */
  function OfMother(list: seq<Id>, j: map<Id, seq<LocInfo>>, nest: Option<string>, m: string): seq<Id>
  {
    Filter(list, a => MotherOf(j, nest, a) == m)
  }

  /** `groups` are what one melted class `mc` forms over `nested`: they hold
      exactly the agents of `nested` it admits that have a split value. */
  ghost predicate MeltClassFormed(mc: LocationClass, nested: seq<Id>, groups: seq<seq<Id>>)
  {
    (forall x :: x in Flatten(groups) <==> x in nested && mc.filter(x) && AsList(mc.split(x)) != [])
    && (forall g, x :: g in groups && x in g ==> x in nested && mc.filter(x))
  }

  /** `lists` holds, for each melted class in order, the groups it forms over `nested`. */
  ghost predicate MeltFormed(melt: seq<LocationClass>, nested: seq<Id>, lists: seq<seq<seq<Id>>>)
  {
    |lists| == |melt| && forall k :: 0 <= k < |melt| ==> MeltClassFormed(melt[k], nested, lists[k])
  }

  ghost predicate SameMother(j: map<Id, seq<LocInfo>>, nest: Option<string>, r: seq<seq<Id>>)
  {
    forall g, h, x, y :: g in r && h in r && x in g && y in h ==> MotherOf(j, nest, x) == MotherOf(j, nest, y)
  }

  // ----- per-agent class descriptors -----

  /** The value stored under a key, if any. */
  function Lookup(m: map<(Id, string), Datum>, a: Id, n: string): Option<Datum>
  {
    if (a, n) in m then Some(m[(a, n)]) else None
  }

  /** The descriptor a member of location `l` stores under the class name. */
  function Label(l: LocInfo): Datum
  {
    Text(Descriptor(l.groupValue, l.groupId))
  }

  /** What attribute `n` of agent `a` holds after the locations `created`
      were filled, starting from `before`: the descriptor of the last created
      location of class `n` the agent joined, or the earlier value. */
  function Expected(before: map<(Id, string), Datum>, created: seq<Loc>, a: Id, n: string): Option<Datum>
  {
    match LastOfClass(JoinedVia(created, a), n)
    case Some(m) => Some(Label(m))
    case None => Lookup(before, a, n)
  }

  /** `after` is `before` with the descriptors of `created` written in order. */
  ghost predicate Labelled(before: map<(Id, string), Datum>, after: map<(Id, string), Datum>, created: seq<Loc>)
  {
    forall a, n :: Lookup(after, a, n) == Expected(before, created, a, n)
  }

  lemma {:induction false} JoinedViaConcat(c1: seq<Loc>, c2: seq<Loc>, a: Id)
    ensures JoinedVia(c1 + c2, a) == JoinedVia(c1, a) + JoinedVia(c2, a)
    decreases |c2|
  {
    if c2 != [] {
      var init := c2[..|c2| - 1];
      assert (c1 + c2)[..|c1 + c2| - 1] == c1 + init;
      JoinedViaConcat(c1, init, a);
    } else {
      assert c1 + c2 == c1;
    }
  }

  lemma {:induction false} LastOfClassConcat(s: seq<LocInfo>, t: seq<LocInfo>, n: string)
    ensures LastOfClass(s + t, n) == if LastOfClass(t, n).Some? then LastOfClass(t, n) else LastOfClass(s, n)
    decreases |t|
  {
    if t != [] {
      var init := t[..|t| - 1];
      assert (s + t)[..|s + t| - 1] == s + init;
      LastOfClassConcat(s, init, n);
    } else {
      assert s + t == s;
    }
  }

  /** Filling `c1` and then `c2` writes the descriptors of `c1 + c2`. */
  lemma LabelledTrans(a0: map<(Id, string), Datum>, a1: map<(Id, string), Datum>, a2: map<(Id, string), Datum>,
                      c1: seq<Loc>, c2: seq<Loc>)
    requires Labelled(a0, a1, c1) && Labelled(a1, a2, c2)
    ensures Labelled(a0, a2, c1 + c2)
  {
    forall a, n ensures Lookup(a2, a, n) == Expected(a0, c1 + c2, a, n) {
      JoinedViaConcat(c1, c2, a);
      LastOfClassConcat(JoinedVia(c1, a), JoinedVia(c2, a), n);
      assert Lookup(a1, a, n) == Expected(a0, c1, a, n);
    }
  }

  /** Filling one location: its members join it and store its descriptor. */
  lemma OneLocation(a0: map<(Id, string), Datum>, a1: map<(Id, string), Datum>, loc: Loc)
    requires forall a, n :: Lookup(a1, a, n) == (if a in loc.members && n == loc.info.cls then Some(Label(loc.info)) else Lookup(a0, a, n))
    ensures forall a :: JoinedVia([loc], a) == if a in loc.members then [loc.info] else []
    ensures Labelled(a0, a1, [loc])
  {
    forall a ensures JoinedVia([loc], a) == if a in loc.members then [loc.info] else [] {
      assert [loc][..0] == [];
    }
    forall a, n ensures Lookup(a1, a, n) == Expected(a0, [loc], a, n) {
      if a in loc.members {
        assert LastOfClass([loc.info], n) == if loc.info.cls == n then Some(loc.info) else LastOfClass([], n);
      }
    }
  }

  /** The `k`-th location made from a group: the next fresh id, the class,
      the group's value and index, its own subsplit value with index `k`, and
      the group's members whose subsplit answer contains that value (at
      least one). */
  predicate IsSubLocation(c: LocationClass, gv: Val, i: nat, group: seq<Id>, base: nat, loc: Loc, k: nat)
  {
    loc.info == LocInfo(base + k, c.name, gv, loc.info.subgroupValue, i, k) &&
    loc.members == SubMembers(c, group, loc.info.subgroupValue) &&
    |loc.members| > 0
  }

  /** The subgroup values of the listed locations. */
  function ValuesOf(locs: seq<Loc>): set<Val>
  {
    if locs == [] then {} else ValuesOf(locs[..|locs| - 1]) + {locs[|locs| - 1].info.subgroupValue}
  }

  /** A value is among the subgroup values exactly when a listed location carries it. */
  lemma {:induction false} ValuesOfSpec(locs: seq<Loc>)
    ensures forall v :: v in ValuesOf(locs) <==> exists k :: 0 <= k < |locs| && locs[k].info.subgroupValue == v
  {
    if locs != [] {
      var init := locs[..|locs| - 1];
      ValuesOfSpec(init);
      assert forall k :: 0 <= k < |init| ==> init[k] == locs[k];
    }
  }

  /** No two of the listed locations share a subgroup value. */
  predicate DistinctValues(locs: seq<Loc>)
  {
    forall k, m :: 0 <= k < m < |locs| ==> locs[k].info.subgroupValue != locs[m].info.subgroupValue
  }

  /** The sub-locations built so far for group `i`: one per handled subgroup
      value `done`, each a sub-location numbered from `base`. */
  ghost predicate SubBuilt(c: LocationClass, gv: Val, i: nat, group: seq<Id>, base: nat, locs: seq<Loc>, done: set<Val>)
  {
    ValuesOf(locs) == done && DistinctValues(locs) &&
    forall k :: 0 <= k < |locs| ==> IsSubLocation(c, gv, i, group, base, locs[k], k)
  }

  lemma ValuesOfAppend(locs: seq<Loc>, loc: Loc)
    ensures ValuesOf(locs + [loc]) == ValuesOf(locs) + {loc.info.subgroupValue}
  {
    assert (locs + [loc])[..|locs|] == locs;
  }

  lemma DistinctAppend(locs: seq<Loc>, loc: Loc)
    requires DistinctValues(locs) && loc.info.subgroupValue !in ValuesOf(locs)
    ensures DistinctValues(locs + [loc])
  {
    var all := locs + [loc];
    forall k, m | 0 <= k < m < |all| ensures all[k].info.subgroupValue != all[m].info.subgroupValue {
      assert all[k] == locs[k];
      if m == |locs| {
        ValuesOfSpec(locs);
        assert locs[k].info.subgroupValue in ValuesOf(locs);
      } else {
        assert all[m] == locs[m];
      }
    }
  }

  lemma SubLocationsAppend(c: LocationClass, gv: Val, i: nat, group: seq<Id>, base: nat, locs: seq<Loc>, loc: Loc)
    requires forall k :: 0 <= k < |locs| ==> IsSubLocation(c, gv, i, group, base, locs[k], k)
    requires IsSubLocation(c, gv, i, group, base, loc, |locs|)
    ensures forall k :: 0 <= k < |locs + [loc]| ==> IsSubLocation(c, gv, i, group, base, (locs + [loc])[k], k)
  {
    var all := locs + [loc];
    forall k | 0 <= k < |all| ensures IsSubLocation(c, gv, i, group, base, all[k], k) {
      if k < |locs| {
        assert all[k] == locs[k];
      }
    }
  }

  lemma SubBuiltStep(c: LocationClass, gv: Val, i: nat, group: seq<Id>, base: nat, locs: seq<Loc>, done: set<Val>,
                     sv: Val, loc: Loc)
    requires SubBuilt(c, gv, i, group, base, locs, done) && sv !in done
    requires loc.info.subgroupValue == sv && IsSubLocation(c, gv, i, group, base, loc, |locs|)
    ensures SubBuilt(c, gv, i, group, base, locs + [loc], done + {sv})
  {
    ValuesOfAppend(locs, loc);
    DistinctAppend(locs, loc);
    SubLocationsAppend(c, gv, i, group, base, locs, loc);
  }

  /** `j1` is `j0` with every agent's memberships of `created` appended in order. */
  ghost predicate Extended(j0: map<Id, seq<LocInfo>>, j1: map<Id, seq<LocInfo>>, created: seq<Loc>)
  {
    forall a :: JoinedOf(j1, a) == JoinedOf(j0, a) + JoinedVia(created, a)
  }

  lemma ExtendedTrans(j0: map<Id, seq<LocInfo>>, j1: map<Id, seq<LocInfo>>, j2: map<Id, seq<LocInfo>>,
                      c1: seq<Loc>, c2: seq<Loc>)
    requires Extended(j0, j1, c1) && Extended(j1, j2, c2)
    ensures Extended(j0, j2, c1 + c2)
  {
    forall a ensures JoinedOf(j2, a) == JoinedOf(j0, a) + JoinedVia(c1 + c2, a) {
      ExtendedAt(JoinedOf(j0, a), JoinedOf(j1, a), JoinedOf(j2, a), c1, c2, a);
    }
  }

  lemma ExtendedAt(s0: seq<LocInfo>, s1: seq<LocInfo>, s2: seq<LocInfo>, c1: seq<Loc>, c2: seq<Loc>, a: Id)
    requires s1 == s0 + JoinedVia(c1, a) && s2 == s1 + JoinedVia(c2, a)
    ensures s2 == s0 + JoinedVia(c1 + c2, a)
  {
    JoinedViaConcat(c1, c2, a);
    var v1, v2 := JoinedVia(c1, a), JoinedVia(c2, a);
    assert (s0 + v1) + v2 == s0 + (v1 + v2);
  }

  /** The state of the sub-location loop: the locations built so far, and
      the memberships and descriptors they added to `j0` and `a0`. */
  ghost predicate SubState(c: LocationClass, gv: Val, i: nat, group: seq<Id>, base: nat,
                           j0: map<Id, seq<LocInfo>>, a0: map<(Id, string), Datum>,
                           j: map<Id, seq<LocInfo>>, a: map<(Id, string), Datum>, locs: seq<Loc>, done: set<Val>)
  {
    SubBuilt(c, gv, i, group, base, locs, done) && Extended(j0, j, locs) && Labelled(a0, a, locs)
  }

  /** The slot a location fills: its group value, group index and subgroup value. */
  function Slot(l: Loc): (Val, nat, Val)
  {
    (l.info.groupValue, l.info.groupId, l.info.subgroupValue)
  }

  /** No two of the listed locations fill the same slot. */
  predicate OnePerSlot(locs: seq<Loc>)
  {
    forall k, m :: 0 <= k < m < |locs| ==> Slot(locs[k]) != Slot(locs[m])
  }

  /** Location `loc` is one of class `c` and group value `gv`, made from
      group `groupId` of `groups`: it holds exactly that group's members
      whose subsplit answer contains its subgroup value, at least one. */
  predicate SubOf(c: LocationClass, gv: Val, groups: seq<seq<Id>>, loc: Loc)
  {
    loc.info.cls == c.name && loc.info.groupValue == gv && loc.info.groupId < |groups| &&
    loc.members == SubMembers(c, groups[loc.info.groupId], loc.info.subgroupValue) && |loc.members| > 0
  }

  /** Each subgroup value a member of one of the first `n` groups is given
      has a location among `locs` for that group. */
  ghost predicate CoveredUpTo(c: LocationClass, groups: seq<seq<Id>>, n: nat, locs: seq<Loc>)
  {
    n <= |groups| &&
    forall i, x, sv :: 0 <= i < n && x in groups[i] && sv in AsList(c.subsplit(groups[i], x)) ==>
      exists k :: 0 <= k < |locs| && locs[k].info.groupId == i && locs[k].info.subgroupValue == sv
  }

  /** The locations made from the first `n` groups of group value `gv`,
      numbered from `base`: one per subgroup value of each group. */
  ghost predicate GroupsPlaced(c: LocationClass, gv: Val, groups: seq<seq<Id>>, base: nat, locs: seq<Loc>, n: nat)
  {
    (forall k :: 0 <= k < |locs| ==>
      locs[k].info.uid == base + k && SubOf(c, gv, groups, locs[k]) && locs[k].info.groupId < n) &&
    CoveredUpTo(c, groups, n, locs) && OnePerSlot(locs)
  }

  lemma CoveredStep(c: LocationClass, groups: seq<seq<Id>>, locs: seq<Loc>, i: nat, sub: seq<Loc>)
    requires CoveredUpTo(c, groups, i, locs) && i < |groups|
    requires forall k :: 0 <= k < |sub| ==> sub[k].info.groupId == i
    requires ValuesOf(sub) == SubValues(c, groups[i])
    ensures CoveredUpTo(c, groups, i + 1, locs + sub)
  {
    var all := locs + sub;
    ValuesOfSpec(sub);
    forall p, x, sv | 0 <= p < i + 1 && x in groups[p] && sv in AsList(c.subsplit(groups[p], x))
      ensures exists k :: 0 <= k < |all| && all[k].info.groupId == p && all[k].info.subgroupValue == sv
    {
      if p < i {
        var k :| 0 <= k < |locs| && locs[k].info.groupId == p && locs[k].info.subgroupValue == sv;
        assert all[k] == locs[k];
      } else {
        assert sv in SubValues(c, groups[i]);
        var k :| 0 <= k < |sub| && sub[k].info.subgroupValue == sv;
        assert all[|locs| + k] == sub[k];
      }
    }
  }

  lemma OnePerSlotStep(locs: seq<Loc>, i: nat, sub: seq<Loc>)
    requires OnePerSlot(locs) && DistinctValues(sub)
    requires forall k :: 0 <= k < |locs| ==> locs[k].info.groupId < i
    requires forall k :: 0 <= k < |sub| ==> sub[k].info.groupId == i
    ensures OnePerSlot(locs + sub)
  {
    var all := locs + sub;
    forall k, m | 0 <= k < m < |all| ensures Slot(all[k]) != Slot(all[m]) {
      if m < |locs| {
        assert all[k] == locs[k] && all[m] == locs[m];
      } else if k < |locs| {
        assert all[k] == locs[k] && all[m] == sub[m - |locs|];
      } else {
        assert all[k] == sub[k - |locs|] && all[m] == sub[m - |locs|];
      }
    }
  }

  lemma GroupsPlacedStep(c: LocationClass, gv: Val, groups: seq<seq<Id>>, base: nat, locs: seq<Loc>, i: nat, sub: seq<Loc>)
    requires GroupsPlaced(c, gv, groups, base, locs, i) && i < |groups|
    requires forall k :: 0 <= k < |sub| ==> IsSubLocation(c, gv, i, groups[i], base + |locs|, sub[k], k)
    requires ValuesOf(sub) == SubValues(c, groups[i]) && DistinctValues(sub)
    ensures GroupsPlaced(c, gv, groups, base, locs + sub, i + 1)
  {
    var all := locs + sub;
    forall k | 0 <= k < |all|
      ensures all[k].info.uid == base + k && SubOf(c, gv, groups, all[k]) && all[k].info.groupId < i + 1
    {
      if k < |locs| {
        assert all[k] == locs[k];
      } else {
        assert all[k] == sub[k - |locs|];
      }
    }
    CoveredStep(c, groups, locs, i, sub);
    OnePerSlotStep(locs, i, sub);
  }

  /** The affiliated agents whose nested group values include `gv`, in list order. */
  function ValueAgents(j: map<Id, seq<LocInfo>>, c: LocationClass, aff: seq<Id>, gv: Val): (r: seq<Id>)
    ensures forall a :: a in r <==> a in aff && gv in GroupValues(j, c, a, true)
    ensures forall a :: multiset(r)[a] == if gv in GroupValues(j, c, a, true) then multiset(aff)[a] else 0
  {
    Filter(aff, a => gv in GroupValues(j, c, a, true))
  }

  /** The groups of group value `gv` of class `c`: they hold listed agents
      the class admits, and for a class that does not melt they pack the
      affiliated agents whose nested group values include `gv`. */
  ghost predicate GroupsFor(c: LocationClass, list: seq<Id>, j0: map<Id, seq<LocInfo>>, gv: Val, groups: seq<seq<Id>>)
  {
    (forall g, x :: g in groups && x in g ==> x in list && Admits(c, x)) &&
    (c.melt == [] ==> Packing(c, ValueAgents(j0, c, ClassAffiliated(c, list), gv), groups))
  }

  /** A member of a group of a class that does not melt is affiliated and
      carries the group value. */
  lemma GroupMemberCarries(c: LocationClass, list: seq<Id>, j0: map<Id, seq<LocInfo>>, gv: Val,
                           groups: seq<seq<Id>>, g: seq<Id>, x: Id)
    requires GroupsFor(c, list, j0, gv, groups) && c.melt == []
    requires g in groups && x in g
    ensures x in ClassAffiliated(c, list) && gv in GroupValues(j0, c, x, true)
  {
    InFlatten(groups, x);
    assert x in multiset(Flatten(groups));
    assert x in multiset(ValueAgents(j0, c, ClassAffiliated(c, list), gv));
  }

  /** Location `loc` was made from a group of `grouping`, by its group value. */
  ghost predicate InGrouping(c: LocationClass, grouping: map<Val, seq<seq<Id>>>, loc: Loc)
  {
    loc.info.groupValue in grouping && SubOf(c, loc.info.groupValue, grouping[loc.info.groupValue], loc)
  }

  /** Every slot of `grouping` (a group value, one of its groups, and a
      subgroup value one of the group's members is given) has a location
      among `created`. */
  ghost predicate Covered(c: LocationClass, grouping: map<Val, seq<seq<Id>>>, created: seq<Loc>)
  {
    forall gv, i, x, sv ::
      gv in grouping && 0 <= i < |grouping[gv]| && x in grouping[gv][i] && sv in AsList(c.subsplit(grouping[gv][i], x))
      ==> exists k :: 0 <= k < |created| && Slot(created[k]) == (gv, i, sv)
  }

  /** The locations created for class `c` so far and the groups of each
      group value handled: the groups are those of their value, each
      location fills a slot of them, every slot is filled, and only once. */
  ghost predicate Grouped(c: LocationClass, list: seq<Id>, j0: map<Id, seq<LocInfo>>,
                          created: seq<Loc>, grouping: map<Val, seq<seq<Id>>>)
  {
    (forall gv :: gv in grouping ==> GroupsFor(c, list, j0, gv, grouping[gv])) &&
    (forall k :: 0 <= k < |created| ==> InGrouping(c, grouping, created[k])) &&
    Covered(c, grouping, created) && OnePerSlot(created)
  }

  /** What `create_locations` does for one class: a grouping for each group
      value of its affiliated agents and no other, and the locations of
      exactly its slots. */
  ghost predicate ClassPlaced(c: LocationClass, list: seq<Id>, j0: map<Id, seq<LocInfo>>,
                              created: seq<Loc>, grouping: map<Val, seq<seq<Id>>>)
  {
    (forall gv :: gv in grouping <==> exists a :: a in ClassAffiliated(c, list) && gv in GroupValues(j0, c, a, true)) &&
    Grouped(c, list, j0, created, grouping)
  }

  /** Once the groupings cover exactly the group values found, the class is placed. */
  lemma ClassPlacedFrom(c: LocationClass, list: seq<Id>, j0: map<Id, seq<LocInfo>>,
                        created: seq<Loc>, grouping: map<Val, seq<seq<Id>>>, values: set<Val>)
    requires forall v :: v in values <==> exists a :: a in ClassAffiliated(c, list) && v in GroupValues(j0, c, a, true)
    requires grouping.Keys == values && Grouped(c, list, j0, created, grouping)
    ensures ClassPlaced(c, list, j0, created, grouping)
  {
  }

  lemma InGroupingStep(c: LocationClass, grouping: map<Val, seq<seq<Id>>>, created: seq<Loc>,
                       gv: Val, groups: seq<seq<Id>>, base: nat, more: seq<Loc>)
    requires forall k :: 0 <= k < |created| ==> InGrouping(c, grouping, created[k])
    requires gv !in grouping && GroupsPlaced(c, gv, groups, base, more, |groups|)
    ensures forall k :: 0 <= k < |created + more| ==> InGrouping(c, grouping[gv := groups], (created + more)[k])
  {
    var all := created + more;
    forall k | 0 <= k < |all| ensures InGrouping(c, grouping[gv := groups], all[k]) {
      if k < |created| {
        assert all[k] == created[k];
      } else {
        assert all[k] == more[k - |created|];
      }
    }
  }

  lemma CoveredClassStep(c: LocationClass, grouping: map<Val, seq<seq<Id>>>, created: seq<Loc>,
                         gv: Val, groups: seq<seq<Id>>, more: seq<Loc>)
    requires Covered(c, grouping, created)
    requires CoveredUpTo(c, groups, |groups|, more) && forall k :: 0 <= k < |more| ==> more[k].info.groupValue == gv
    ensures Covered(c, grouping[gv := groups], created + more)
  {
    var all := created + more;
    var g2 := grouping[gv := groups];
    forall v, i, x, sv | v in g2 && 0 <= i < |g2[v]| && x in g2[v][i] && sv in AsList(c.subsplit(g2[v][i], x))
      ensures exists k :: 0 <= k < |all| && Slot(all[k]) == (v, i, sv)
    {
      if v == gv {
        var k :| 0 <= k < |more| && more[k].info.groupId == i && more[k].info.subgroupValue == sv;
        assert all[|created| + k] == more[k];
      } else {
        var k :| 0 <= k < |created| && Slot(created[k]) == (v, i, sv);
        assert all[k] == created[k];
      }
    }
  }

  lemma OnePerSlotClassStep(c: LocationClass, grouping: map<Val, seq<seq<Id>>>, created: seq<Loc>,
                            gv: Val, groups: seq<seq<Id>>, base: nat, more: seq<Loc>)
    requires OnePerSlot(created) && forall k :: 0 <= k < |created| ==> InGrouping(c, grouping, created[k])
    requires gv !in grouping && GroupsPlaced(c, gv, groups, base, more, |groups|)
    ensures OnePerSlot(created + more)
  {
    var all := created + more;
    forall k, m | 0 <= k < m < |all| ensures Slot(all[k]) != Slot(all[m]) {
      if m < |created| {
        assert all[k] == created[k] && all[m] == created[m];
      } else if k < |created| {
        assert all[k] == created[k] && all[m] == more[m - |created|];
      } else {
        assert all[k] == more[k - |created|] && all[m] == more[m - |created|];
      }
    }
  }

  lemma GroupedStep(c: LocationClass, list: seq<Id>, j0: map<Id, seq<LocInfo>>,
                    created: seq<Loc>, grouping: map<Val, seq<seq<Id>>>,
                    gv: Val, groups: seq<seq<Id>>, base: nat, more: seq<Loc>)
    requires Grouped(c, list, j0, created, grouping)
    requires gv !in grouping && GroupsPlaced(c, gv, groups, base, more, |groups|)
    requires GroupsFor(c, list, j0, gv, groups)
    ensures Grouped(c, list, j0, created + more, grouping[gv := groups])
  {
    InGroupingStep(c, grouping, created, gv, groups, base, more);
    CoveredClassStep(c, grouping, created, gv, groups, more);
    OnePerSlotClassStep(c, grouping, created, gv, groups, base, more);
  }

  /** The locations created for class `c` so far, numbered from `base`: each
      is sound, and for a class that does not melt, each member carries the
      location's group value among the values stored for it at the start. */
  ghost predicate ClassBuilt(c: LocationClass, list: seq<Id>, j0: map<Id, seq<LocInfo>>, base: nat, created: seq<Loc>)
  {
    forall k :: 0 <= k < |created| ==>
      created[k].info.uid == base + k && Sound(c, list, created[k]) &&
      (c.melt == [] ==> forall x :: x in created[k].members ==> created[k].info.groupValue in GroupValues(j0, c, x, true))
  }

  lemma ClassBuiltStep(c: LocationClass, list: seq<Id>, j0: map<Id, seq<LocInfo>>, base: nat, created: seq<Loc>,
                       gv: Val, groups: seq<seq<Id>>, more: seq<Loc>)
    requires ClassBuilt(c, list, j0, base, created)
    requires GroupsPlaced(c, gv, groups, base + |created|, more, |groups|)
    requires GroupsFor(c, list, j0, gv, groups)
    ensures ClassBuilt(c, list, j0, base, created + more)
  {
    var all := created + more;
    forall k | |created| <= k < |all|
      ensures all[k].info.uid == base + k && Sound(c, list, all[k])
      ensures c.melt == [] ==> forall x :: x in all[k].members ==> all[k].info.groupValue in GroupValues(j0, c, x, true)
    {
      var l := more[k - |created|];
      assert all[k] == l;
      var g := groups[l.info.groupId];
      assert g in groups;
      forall x | x in l.members ensures x in list && Admits(c, x)
        && (c.melt == [] ==> gv in GroupValues(j0, c, x, true))
      {
        if c.melt == [] {
          GroupMemberCarries(c, list, j0, gv, groups, g, x);
        }
      }
    }
  }

  /** The state of the loop over the groups of one group value, once the
      first `n` groups are placed. */
  ghost predicate PlaceState(c: LocationClass, gv: Val, groups: seq<seq<Id>>, base: nat,
                             j0: map<Id, seq<LocInfo>>, a0: map<(Id, string), Datum>,
                             j: map<Id, seq<LocInfo>>, a: map<(Id, string), Datum>, locs: seq<Loc>, n: nat)
  {
    GroupsPlaced(c, gv, groups, base, locs, n) && Extended(j0, j, locs) && Labelled(a0, a, locs)
  }

  lemma PlaceStateStep(c: LocationClass, gv: Val, groups: seq<seq<Id>>, base: nat,
                       j0: map<Id, seq<LocInfo>>, a0: map<(Id, string), Datum>,
                       jb: map<Id, seq<LocInfo>>, ab: map<(Id, string), Datum>,
                       j: map<Id, seq<LocInfo>>, a: map<(Id, string), Datum>, locs: seq<Loc>, i: nat, sub: seq<Loc>)
    requires PlaceState(c, gv, groups, base, j0, a0, jb, ab, locs, i) && i < |groups|
    requires forall k :: 0 <= k < |sub| ==> IsSubLocation(c, gv, i, groups[i], base + |locs|, sub[k], k)
    requires ValuesOf(sub) == SubValues(c, groups[i]) && DistinctValues(sub)
    requires Extended(jb, j, sub) && Labelled(ab, a, sub)
    ensures PlaceState(c, gv, groups, base, j0, a0, j, a, locs + sub, i + 1)
  {
    GroupsPlacedStep(c, gv, groups, base, locs, i, sub);
    ExtendedTrans(j0, jb, j, locs, sub);
    LabelledTrans(a0, ab, a, locs, sub);
  }

  /** The state of the loop over the group values of one class. */
  ghost predicate ClassState(c: LocationClass, list: seq<Id>, j0: map<Id, seq<LocInfo>>, base: nat,
                             a0: map<(Id, string), Datum>,
                             j: map<Id, seq<LocInfo>>, a: map<(Id, string), Datum>, created: seq<Loc>,
                             grouping: map<Val, seq<seq<Id>>>)
  {
    ClassBuilt(c, list, j0, base, created) && Grouped(c, list, j0, created, grouping) &&
    Extended(j0, j, created) && Labelled(a0, a, created)
  }

  lemma ClassStateStep(c: LocationClass, list: seq<Id>, j0: map<Id, seq<LocInfo>>, base: nat,
                       a0: map<(Id, string), Datum>,
                       jb: map<Id, seq<LocInfo>>, ab: map<(Id, string), Datum>,
                       j: map<Id, seq<LocInfo>>, a: map<(Id, string), Datum>, created: seq<Loc>,
                       grouping: map<Val, seq<seq<Id>>>, gv: Val, groups: seq<seq<Id>>, more: seq<Loc>)
    requires ClassState(c, list, j0, base, a0, jb, ab, created, grouping) && gv !in grouping
    requires GroupsPlaced(c, gv, groups, base + |created|, more, |groups|) && Extended(jb, j, more) && Labelled(ab, a, more)
    requires GroupsFor(c, list, j0, gv, groups)
    ensures ClassState(c, list, j0, base, a0, j, a, created + more, grouping[gv := groups])
  {
    ClassBuiltStep(c, list, j0, base, created, gv, groups, more);
    GroupedStep(c, list, j0, created, grouping, gv, groups, base + |created|, more);
    ExtendedTrans(j0, jb, j, created, more);
    LabelledTrans(a0, ab, a, created, more);
  }

  /** The temporary group values are ready for the group-value loop: every
      affiliated agent has some, and for a class that does not melt they are
      its nested group values. */
  ghost predicate ScratchReady(c: LocationClass, aff: seq<Id>, j0: map<Id, seq<LocInfo>>, values: map<Id, seq<Val>>)
  {
    (forall a :: a in aff ==> a in values) &&
    (c.melt == [] ==> forall a :: a in aff ==> values[a] == GroupValues(j0, c, a, true))
  }

  /** With the temporary group values ready, the agents found for `gv` are,
      up to order, the affiliated agents whose nested group values include it. */
  lemma ReadyValueAgents(c: LocationClass, aff: seq<Id>, j0: map<Id, seq<LocInfo>>, values: map<Id, seq<Val>>, gv: Val)
    requires ScratchReady(c, aff, j0, values) && c.melt == []
    ensures multiset(WithValue(values, aff, gv)) == multiset(ValueAgents(j0, c, aff, gv))
  {
    forall a ensures multiset(WithValue(values, aff, gv))[a] == multiset(ValueAgents(j0, c, aff, gv))[a] {
      if a !in aff {
        assert multiset(aff)[a] == 0;
      }
    }
  }

  /** Every created location, numbered from `base`, is sound for one of the classes. */
  ghost predicate AllSound(classes: seq<LocationClass>, list: seq<Id>, base: nat, created: seq<Loc>)
  {
    forall k :: 0 <= k < |created| ==>
      created[k].info.uid == base + k && exists c :: c in classes && Sound(c, list, created[k])
  }

  lemma AllSoundStep(classes: seq<LocationClass>, list: seq<Id>, shuffled: seq<Id>, j0: map<Id, seq<LocInfo>>,
                     base: nat, created: seq<Loc>, i: nat, more: seq<Loc>)
    requires AllSound(classes, list, base, created) && i < |classes|
    requires multiset(shuffled) == multiset(list)
    requires ClassBuilt(classes[i], shuffled, j0, base + |created|, more)
    ensures AllSound(classes, list, base, created + more)
  {
    var all := created + more;
    forall k | |created| <= k < |all|
      ensures all[k].info.uid == base + k && exists c :: c in classes && Sound(c, list, all[k])
    {
      var l := more[k - |created|];
      assert all[k] == l;
      forall x | x in l.members ensures x in list {
        assert x in multiset(shuffled);
      }
      assert Sound(classes[i], list, l);
    }
  }

  /** An affiliated agent carrying `gv` is in one of the groups of `gv`. */
  lemma AgentGrouped(c: LocationClass, list: seq<Id>, j0: map<Id, seq<LocInfo>>, gv: Val, groups: seq<seq<Id>>, x: Id)
    requires GroupsFor(c, list, j0, gv, groups) && c.melt == []
    requires x in ClassAffiliated(c, list) && gv in GroupValues(j0, c, x, true)
    ensures exists i :: 0 <= i < |groups| && x in groups[i]
  {
    assert x in multiset(ValueAgents(j0, c, ClassAffiliated(c, list), gv));
    assert x in multiset(Flatten(groups));
    InFlatten(groups, x);
  }

  /** Each group value of an affiliated agent has its groups. */
  lemma ValueOfAgent(c: LocationClass, list: seq<Id>, j0: map<Id, seq<LocInfo>>,
                     created: seq<Loc>, grouping: map<Val, seq<seq<Id>>>, x: Id, gv: Val)
    requires ClassPlaced(c, list, j0, created, grouping)
    requires x in ClassAffiliated(c, list) && gv in GroupValues(j0, c, x, true)
    ensures gv in grouping && GroupsFor(c, list, j0, gv, grouping[gv])
  {
    assert exists a :: a in ClassAffiliated(c, list) && gv in GroupValues(j0, c, a, true);
    assert Grouped(c, list, j0, created, grouping);
  }

  /** A filled slot's location holds each member of the group that the
      group gives the slot's subgroup value. */
  lemma SlotFilled(c: LocationClass, list: seq<Id>, j0: map<Id, seq<LocInfo>>,
                    grouping: map<Val, seq<seq<Id>>>, created: seq<Loc>, gv: Val, i: nat, x: Id, sv: Val)
    requires Grouped(c, list, j0, created, grouping)
    requires gv in grouping && i < |grouping[gv]| && x in grouping[gv][i] && sv in AsList(c.subsplit(grouping[gv][i], x))
    ensures exists k ::
      0 <= k < |created| && Slot(created[k]) == (gv, i, sv) && x in created[k].members && created[k].info.cls == c.name
  {
    var k :| 0 <= k < |created| && Slot(created[k]) == (gv, i, sv);
    assert InGrouping(c, grouping, created[k]);
  }

  /** A class that does not melt places each agent it admits: for each of
      the agent's group values, the agent is in one of that value's groups,
      and a member of the location of every subgroup value that group gives
      it. */
  lemma AgentPlaced(c: LocationClass, list: seq<Id>, j0: map<Id, seq<LocInfo>>,
                    created: seq<Loc>, grouping: map<Val, seq<seq<Id>>>, x: Id, gv: Val)
    requires ClassPlaced(c, list, j0, created, grouping) && c.melt == []
    requires x in list && c.filter(x) && gv in GroupValues(j0, c, x, true)
    ensures gv in grouping && exists i :: 0 <= i < |grouping[gv]| && x in grouping[gv][i]
    ensures forall i, sv ::
      0 <= i < |grouping[gv]| && x in grouping[gv][i] && sv in AsList(c.subsplit(grouping[gv][i], x))
      ==> exists k :: 0 <= k < |created| && Slot(created[k]) == (gv, i, sv) && x in created[k].members &&
            created[k].info.cls == c.name
  {
    ValueOfAgent(c, list, j0, created, grouping, x, gv);
    AgentGrouped(c, list, j0, gv, grouping[gv], x);
    forall i, sv | 0 <= i < |grouping[gv]| && x in grouping[gv][i] && sv in AsList(c.subsplit(grouping[gv][i], x))
      ensures exists k ::
        0 <= k < |created| && Slot(created[k]) == (gv, i, sv) && x in created[k].members && created[k].info.cls == c.name
    {
      SlotFilled(c, list, j0, grouping, created, gv, i, x, sv);
    }
  }

  /** All members of a location of a class that does not melt have the
      same mother id, as long as their split values hold no dash: the
      location's group value starts with it. */
  lemma MembersShareMother(c: LocationClass, list: seq<Id>, j0: map<Id, seq<LocInfo>>,
                           created: seq<Loc>, grouping: map<Val, seq<seq<Id>>>, k: nat, x: Id, y: Id)
    requires ClassPlaced(c, list, j0, created, grouping) && c.melt == []
    requires k < |created| && x in created[k].members && y in created[k].members
    requires forall s :: s in AsList(c.split(x)) ==> '-' !in s
    requires forall s :: s in AsList(c.split(y)) ==> '-' !in s
    ensures MotherOf(j0, c.nest, x) == MotherOf(j0, c.nest, y)
  {
    var l := created[k];
    var gv := l.info.groupValue;
    assert InGrouping(c, grouping, l);
    var groups := grouping[gv];
    var g := groups[l.info.groupId];
    assert g in groups;
    GroupMemberCarries(c, list, j0, gv, groups, g, x);
    GroupMemberCarries(c, list, j0, gv, groups, g, y);
    GroupValueShape(j0, c, x, true, gv);
    GroupValueShape(j0, c, y, true, gv);
    var sx :| sx in AsList(c.split(x)) && gv == MotherOf(j0, c.nest, x) + "-" + sx;
    var sy :| sy in AsList(c.split(y)) && gv == MotherOf(j0, c.nest, y) + "-" + sy;
    PrefixedValueDeterminesMother(MotherOf(j0, c.nest, x), sx, MotherOf(j0, c.nest, y), sy);
  }

  /** One class's pass of `create_locations`: the shuffled agent list it
      saw, the memberships before it, its groups per group value and the
      locations it created. */
  datatype ClassRun = ClassRun(order: seq<Id>, before: map<Id, seq<LocInfo>>,
                               grouping: map<Val, seq<seq<Id>>>, locs: seq<Loc>)

  /** The locations of the passes, one pass after the other. */
  function LocsOf(runs: seq<ClassRun>): seq<Loc>
  {
    if runs == [] then [] else LocsOf(runs[..|runs| - 1]) + runs[|runs| - 1].locs
  }

  /** Pass `run` for class `c`: it saw a reordering of `list` and did for
      its class what `ClassPlaced` says. */
  ghost predicate RunOk(c: LocationClass, list: seq<Id>, run: ClassRun)
  {
    multiset(run.order) == multiset(list) && ClassPlaced(c, run.order, run.before, run.locs, run.grouping)
  }

  /** The passes for the first `|runs|` classes, one pass per class. */
  ghost predicate RunsMade(classes: seq<LocationClass>, list: seq<Id>, runs: seq<ClassRun>)
  {
    |runs| <= |classes| &&
    (|runs| == 0 ||
     (RunsMade(classes, list, runs[..|runs| - 1]) && RunOk(classes[|runs| - 1], list, runs[|runs| - 1])))
  }

  /** Each pass saw the memberships `j0` extended by the earlier passes. */
  ghost predicate RunsChained(j0: map<Id, seq<LocInfo>>, runs: seq<ClassRun>)
  {
    forall p :: 0 <= p < |runs| ==> Extended(j0, runs[p].before, LocsOf(runs[..p]))
  }

  lemma RunsStep(classes: seq<LocationClass>, list: seq<Id>, j0: map<Id, seq<LocInfo>>, runs: seq<ClassRun>, run: ClassRun)
    requires RunsMade(classes, list, runs) && RunsChained(j0, runs) && |runs| < |classes|
    requires RunOk(classes[|runs|], list, run) && Extended(j0, run.before, LocsOf(runs))
    ensures RunsMade(classes, list, runs + [run]) && RunsChained(j0, runs + [run])
    ensures LocsOf(runs + [run]) == LocsOf(runs) + run.locs
  {
    RunsMadeStep(classes, list, runs, run);
    RunsChainedStep(j0, runs, run);
  }

  lemma RunsMadeStep(classes: seq<LocationClass>, list: seq<Id>, runs: seq<ClassRun>, run: ClassRun)
    requires RunsMade(classes, list, runs) && |runs| < |classes|
    requires RunOk(classes[|runs|], list, run)
    ensures RunsMade(classes, list, runs + [run])
  {
    assert (runs + [run])[..|runs|] == runs;
  }

  lemma RunsChainedStep(j0: map<Id, seq<LocInfo>>, runs: seq<ClassRun>, run: ClassRun)
    requires RunsChained(j0, runs)
    requires Extended(j0, run.before, LocsOf(runs))
    ensures RunsChained(j0, runs + [run])
  {
    var all := runs + [run];
    assert all[..|runs|] == runs;
    forall p | 0 <= p < |all| ensures Extended(j0, all[p].before, LocsOf(all[..p])) {
      if p < |runs| {
        assert all[..p] == runs[..p] && all[p] == runs[p];
      }
    }
  }

  /** After the passes `runs` over the first `|runs|` classes: every
      location is sound, the passes are those `RunsMade` describes, and the
      memberships and attributes grew from `j0`/`a0` by exactly `created`. */
  ghost predicate EachState(classes: seq<LocationClass>, list: seq<Id>, base: nat,
                            j0: map<Id, seq<LocInfo>>, a0: map<(Id, string), Datum>,
                            j: map<Id, seq<LocInfo>>, a: map<(Id, string), Datum>,
                            created: seq<Loc>, runs: seq<ClassRun>)
  {
    AllSound(classes, list, base, created) && created == LocsOf(runs) &&
    RunsMade(classes, list, runs) && RunsChained(j0, runs) &&
    Extended(j0, j, created) && Labelled(a0, a, created)
  }

  lemma EachStateStep(classes: seq<LocationClass>, list: seq<Id>, order: seq<Id>, base: nat,
                      j0: map<Id, seq<LocInfo>>, a0: map<(Id, string), Datum>,
                      jb: map<Id, seq<LocInfo>>, ab: map<(Id, string), Datum>,
                      j: map<Id, seq<LocInfo>>, a: map<(Id, string), Datum>,
                      created: seq<Loc>, runs: seq<ClassRun>, grouping: map<Val, seq<seq<Id>>>, more: seq<Loc>)
    requires EachState(classes, list, base, j0, a0, jb, ab, created, runs) && |runs| < |classes|
    requires multiset(order) == multiset(list)
    requires ClassBuilt(classes[|runs|], order, jb, base + |created|, more)
    requires ClassPlaced(classes[|runs|], order, jb, more, grouping)
    requires Extended(jb, j, more) && Labelled(ab, a, more)
    ensures EachState(classes, list, base, j0, a0, j, a, created + more, runs + [ClassRun(order, jb, grouping, more)])
  {
    var run := ClassRun(order, jb, grouping, more);
    AllSoundStep(classes, list, order, jb, base, created, |runs|, more);
    ExtendedTrans(j0, jb, j, created, more);
    LabelledTrans(a0, ab, a, created, more);
    assert RunOk(classes[|runs|], list, run);
    RunsStep(classes, list, j0, runs, run);
  }

  /** What `RunsMade` says of one pass. */
  lemma {:induction false} RunHolds(classes: seq<LocationClass>, list: seq<Id>, runs: seq<ClassRun>, p: nat)
    requires RunsMade(classes, list, runs) && p < |runs|
    ensures RunOk(classes[p], list, runs[p])
  {
    if p < |runs| - 1 {
      var init := runs[..|runs| - 1];
      RunHolds(classes, list, init, p);
      assert init[p] == runs[p];
    }
  }

  /** Every location of a pass is among the locations of all passes. */
  lemma {:induction false} LocsOfHolds(runs: seq<ClassRun>, p: nat, k: nat)
    requires p < |runs| && k < |runs[p].locs|
    ensures runs[p].locs[k] in LocsOf(runs)
  {
    var init := runs[..|runs| - 1];
    if p < |runs| - 1 {
      LocsOfHolds(init, p, k);
    } else {
      assert runs[p].locs[k] in runs[p].locs;
    }
  }

  /** After `create_locations`, an agent of the list that a class which does
      not melt admits is, for each of its group values (as they stood when
      the class's turn came), a member of a created location of that class
      with that group value, unless the group it was packed into gives it no
      subgroup value. */
  lemma CreatedPlacesAgent(classes: seq<LocationClass>, list: seq<Id>, made: seq<Loc>,
                           runs: seq<ClassRun>, p: nat, x: Id, gv: Val)
    requires |runs| == |classes| && made == LocsOf(runs) && RunsMade(classes, list, runs)
    requires p < |runs| && classes[p].melt == []
    requires x in list && classes[p].filter(x) && gv in GroupValues(runs[p].before, classes[p], x, true)
    ensures gv in runs[p].grouping
    ensures exists i :: 0 <= i < |runs[p].grouping[gv]| && x in runs[p].grouping[gv][i]
    ensures forall i, sv ::
      0 <= i < |runs[p].grouping[gv]| && x in runs[p].grouping[gv][i] && sv in AsList(classes[p].subsplit(runs[p].grouping[gv][i], x))
      ==> exists l :: l in made && l.info.cls == classes[p].name && l.info.groupValue == gv && x in l.members
  {
    RunHolds(classes, list, runs, p);
    assert x in multiset(list);
    assert x in runs[p].order;
    forall k | 0 <= k < |runs[p].locs| ensures runs[p].locs[k] in made {
      LocsOfHolds(runs, p, k);
    }
    PassPlacesAgent(classes[p], runs[p], made, x, gv);
  }

  /** `AgentPlaced` for a pass whose locations are among `made`. */
  lemma PassPlacesAgent(c: LocationClass, run: ClassRun, made: seq<Loc>, x: Id, gv: Val)
    requires ClassPlaced(c, run.order, run.before, run.locs, run.grouping) && c.melt == []
    requires x in run.order && c.filter(x) && gv in GroupValues(run.before, c, x, true)
    requires forall k :: 0 <= k < |run.locs| ==> run.locs[k] in made
    ensures gv in run.grouping
    ensures exists i :: 0 <= i < |run.grouping[gv]| && x in run.grouping[gv][i]
    ensures forall i, sv ::
      0 <= i < |run.grouping[gv]| && x in run.grouping[gv][i] && sv in AsList(c.subsplit(run.grouping[gv][i], x))
      ==> exists l :: l in made && l.info.cls == c.name && l.info.groupValue == gv && x in l.members
  {
    AgentPlaced(c, run.order, run.before, run.locs, run.grouping, x, gv);
    forall i, sv | 0 <= i < |run.grouping[gv]| && x in run.grouping[gv][i] && sv in AsList(c.subsplit(run.grouping[gv][i], x))
      ensures exists l :: l in made && l.info.cls == c.name && l.info.groupValue == gv && x in l.members
    {
      var k :| 0 <= k < |run.locs| && Slot(run.locs[k]) == (gv, i, sv) && x in run.locs[k].members &&
        run.locs[k].info.cls == c.name;
      assert run.locs[k] in made;
    }
  }

  /** The attributes after `create_locations` set every listed agent's
      attribute of every class to None. */
  function Reset(a: map<(Id, string), Datum>, list: seq<Id>, classes: seq<LocationClass>): map<(Id, string), Datum>
  {
    var keys := set x, k | x in list && 0 <= k < |classes| :: (x, classes[k].name);
    a + map p | p in keys :: NoneDatum
  }

  /** After the reset, a listed agent's attribute of each class is None and
      every other attribute is as before. */
  lemma ResetLookup(a: map<(Id, string), Datum>, list: seq<Id>, classes: seq<LocationClass>, x: Id, n: string)
    ensures Lookup(Reset(a, list, classes), x, n) ==
      if x in list && exists k :: 0 <= k < |classes| && classes[k].name == n then Some(NoneDatum) else Lookup(a, x, n)
  {
    if x in list && exists k :: 0 <= k < |classes| && classes[k].name == n {
      var k :| 0 <= k < |classes| && classes[k].name == n;
      assert (x, classes[k].name) in Reset(a, list, classes);
    }
  }

  /** The outcome of building the locations of `classes` for `list`: the
      new locations took the ids from `base` to `next`, are sound for the
      classes, are those of one pass per class as `RunsMade` describes, and
      their memberships and descriptors were added. */
  ghost predicate Built(classes: seq<LocationClass>, list: seq<Id>, base: nat,
                        j0: map<Id, seq<LocInfo>>, a0: map<(Id, string), Datum>,
                        next: nat, j: map<Id, seq<LocInfo>>, a: map<(Id, string), Datum>, made: seq<Loc>,
                        runs: seq<ClassRun>)
  {
    next == base + |made| && |runs| == |classes| && EachState(classes, list, base, j0, a0, j, a, made, runs)
  }

  /** The agent list `create_locations` works on: the given one, else the maker's. */
  function ListOf(agentsArg: Option<seq<Id>>, agents: Option<seq<Id>>): seq<Id>
  {
    if agentsArg.Some? then agentsArg.value else if agents.Some? then agents.value else []
  }

  /** The locations kept by `create_locations`: none after clearing. */
  function Kept(clear: bool, locations: Option<seq<Loc>>): seq<Loc>
  {
    if clear || locations.None? then [] else locations.value
  }

  // ----- records -----

  /** The agent class of a record: the default without a class dictionary,
      otherwise the dictionary's entry for the record's class column. */
  function ClassOf(row: map<string, Datum>, classAttr: Option<string>, classDict: Option<map<Datum, string>>,
                   kind: string): (r: Result<string, MakerError>)
    ensures classDict.None? ==> r == Ok(kind)
    ensures classDict.Some? && r.Ok? ==> exists v :: v in classDict.value && classDict.value[v] == r.value
  {
    match classDict
    case None => Ok(kind)
    case Some(d) =>
      if classAttr.None? || classAttr.value !in row then Err(NoClassColumn)
      else if row[classAttr.value] !in d then Err(UnknownClass(row[classAttr.value]))
      else Ok(d[row[classAttr.value]])
  }

  /** The error creating agents from the rows raises, if any: the first row
      whose class lookup fails, or the first row at all when there is a
      column called `id`. */
  function RowsError(t: Table, classAttr: Option<string>, classDict: Option<map<Datum, string>>, kind: string, from: nat): (r: Option<MakerError>)
    ensures r.None? <==> forall k :: from <= k < |t.rows| ==> ClassOf(t.rows[k], classAttr, classDict, kind).Ok? && "id" !in t.columns
    decreases |t.rows| - from
  {
    if from >= |t.rows| then None
    else match ClassOf(t.rows[from], classAttr, classDict, kind)
      case Err(e) => Some(e)
      case Ok(_) => if "id" in t.columns then Some(IdColumn) else RowsError(t, classAttr, classDict, kind, from + 1)
  }

  /** `e1` is `e0` with the agents `base`, ..., `base + count - 1` added; `e0`
      only holds earlier ids. */
  ghost predicate Registered(e0: map<Id, string>, e1: map<Id, string>, base: nat, count: nat)
  {
    (forall a :: a in e1 <==> a in e0 || base <= a < base + count) &&
    (forall a :: a in e0 ==> a < base && e1[a] == e0[a])
  }

  lemma RegisteredStep(e0: map<Id, string>, e1: map<Id, string>, e2: map<Id, string>, base: nat, k: nat)
    requires Registered(e0, e1, base, k)
    requires base + k in e2 && e2 == e1[base + k := e2[base + k]]
    ensures Registered(e0, e2, base, k + 1)
    ensures forall x :: x in e1 ==> e2[x] == e1[x]
  {
  }

  /** `a1` is `a0` with the first `k` records stored, column by column, on
      the agents numbered from `base`. */
  ghost predicate RowsStored(a0: map<(Id, string), Datum>, a1: map<(Id, string), Datum>, t: Table, base: nat, k: nat)
  {
    k <= |t.rows| && Rectangular(t) &&
    forall a: Id, n :: Lookup(a1, a, n) ==
      if base <= a < base + k && n in t.columns then Some(t.rows[a - base][n]) else Lookup(a0, a, n)
  }

  lemma RowsStoredStep(a0: map<(Id, string), Datum>, a1: map<(Id, string), Datum>, a2: map<(Id, string), Datum>,
                       t: Table, base: nat, k: nat)
    requires RowsStored(a0, a1, t, base, k) && k < |t.rows|
    requires forall a, n :: a != base + k ==> Lookup(a2, a, n) == Lookup(a1, a, n)
    requires forall n :: Lookup(a2, base + k, n) == if n in t.columns then Some(t.rows[k][n]) else Lookup(a1, base + k, n)
    ensures RowsStored(a0, a2, t, base, k + 1)
  {
  }

  /** The agents of the first `k` rows were made: consecutive ids from
      `base`, registered with their rows' classes, their records stored. */
  ghost predicate RowsMade(t: Table, classAttr: Option<string>, classDict: Option<map<Datum, string>>, kind: string,
                           base: nat, e0: map<Id, string>, a0: map<(Id, string), Datum>,
                           k: nat, made: seq<Id>, e: map<Id, string>, a: map<(Id, string), Datum>)
  {
    k <= |t.rows| && |made| == k && (forall i :: 0 <= i < k ==> made[i] == base + i) &&
    Registered(e0, e, base, k) &&
    (forall i :: 0 <= i < k ==> ClassOf(t.rows[i], classAttr, classDict, kind) == Ok(e[made[i]])) &&
    RowsStored(a0, a, t, base, k)
  }

  lemma RowsMadeStep(t: Table, classAttr: Option<string>, classDict: Option<map<Datum, string>>, kind: string,
                     base: nat, e0: map<Id, string>, a0: map<(Id, string), Datum>,
                     k: nat, made: seq<Id>, e: map<Id, string>, a: map<(Id, string), Datum>,
                     e2: map<Id, string>, a2: map<(Id, string), Datum>)
    requires RowsMade(t, classAttr, classDict, kind, base, e0, a0, k, made, e, a) && k < |t.rows|
    requires ClassOf(t.rows[k], classAttr, classDict, kind).Ok?
    requires e2 == e[base + k := ClassOf(t.rows[k], classAttr, classDict, kind).value]
    requires forall x, n :: x != base + k ==> Lookup(a2, x, n) == Lookup(a, x, n)
    requires forall n :: Lookup(a2, base + k, n) == if n in t.columns then Some(t.rows[k][n]) else Lookup(a, base + k, n)
    ensures RowsMade(t, classAttr, classDict, kind, base, e0, a0, k + 1, made + [base + k], e2, a2)
  {
    RowsStoredStep(a0, a, a2, t, base, k);
    RegisteredStep(e0, e, e2, base, k);
    var m := made + [base + k];
    forall i | 0 <= i < k + 1 ensures ClassOf(t.rows[i], classAttr, classDict, kind) == Ok(e2[m[i]]) {
      if i < k {
        assert m[i] == made[i];
      }
    }
  }

  /** The state of the loop of `_get_split_values` once the agents of
      `seen` were visited: `values` collects their group values and the
      scratch table holds each one's, other entries as before. */
  ghost predicate SplitState(j: map<Id, seq<LocInfo>>, c: LocationClass, nesting: bool, sv0: map<Id, seq<Val>>,
                             seen: set<Id>, values: set<Val>, sv: map<Id, seq<Val>>)
  {
    Collected(j, c, nesting, seen, values) &&
    (forall a :: a in seen ==> a in sv && sv[a] == GroupValues(j, c, a, nesting)) &&
    (forall a :: a !in seen ==> (a in sv <==> a in sv0)) &&
    (forall a :: a !in seen && a in sv ==> sv[a] == sv0[a])
  }

  ghost predicate Collected(j: map<Id, seq<LocInfo>>, c: LocationClass, nesting: bool, seen: set<Id>, values: set<Val>)
  {
    forall v :: v in values <==> exists a :: a in seen && v in GroupValues(j, c, a, nesting)
  }

  lemma CollectedStep(j: map<Id, seq<LocInfo>>, c: LocationClass, nesting: bool, seen: set<Id>, values: set<Val>, x: Id)
    requires Collected(j, c, nesting, seen, values)
    ensures Collected(j, c, nesting, seen + {x}, values + (set v | v in GroupValues(j, c, x, nesting)))
  {
    var values' := values + (set v | v in GroupValues(j, c, x, nesting));
    forall v ensures v in values' <==> exists a :: a in seen + {x} && v in GroupValues(j, c, a, nesting) {
      if v in values' && v !in values {
        assert x in seen + {x} && v in GroupValues(j, c, x, nesting);
      }
      if exists a :: a in seen + {x} && v in GroupValues(j, c, a, nesting) {
        var a :| a in seen + {x} && v in GroupValues(j, c, a, nesting);
        if a != x {
          assert v in values;
        }
      }
    }
  }

  lemma SplitStateStep(j: map<Id, seq<LocInfo>>, c: LocationClass, nesting: bool, sv0: map<Id, seq<Val>>,
                       seen: set<Id>, values: set<Val>, sv: map<Id, seq<Val>>, x: Id)
    requires SplitState(j, c, nesting, sv0, seen, values, sv)
    ensures SplitState(j, c, nesting, sv0, seen + {x}, values + (set v | v in GroupValues(j, c, x, nesting)),
                       sv[x := GroupValues(j, c, x, nesting)])
  {
    CollectedStep(j, c, nesting, seen, values, x);
  }

  /** Temporary per-agent storage of `_TEMP_group_values`. */
  class Scratch {
    var values: map<Id, seq<Val>>

    constructor ()
      ensures values == map[]
    {
      values := map[];
    }
  }

  /** What a `popy.Model` holds, as far as the maker reads and writes it:
      its id counter, its agent nodes with their classes, the agents'
      memberships and their attributes. */
  datatype ModelState = ModelState(
    nextId: nat,
    envAgents: map<Id, string>,
    joined: map<Id, seq<LocInfo>>,
    attrs: map<(Id, string), Datum>)

  /** The model's counter is above every id it has handed out. */
  ghost predicate CounterAhead(m: ModelState)
  {
    (forall a :: a in m.envAgents ==> a < m.nextId) &&
    (forall a, l :: a in m.joined && l in m.joined[a] ==> l.uid < m.nextId)
  }

  /** A model with no agent, no location and an unused counter, as
      `popy.Model()` makes one. */
  const EmptyModel := ModelState(0, map[], map[], map[])

  class PopMaker {
    /** `self.agents`, the latest agent list. */
    var agents: Option<seq<Id>>
    /** `self.locations`, the created locations. */
    var locations: Option<seq<Loc>>
    /** The model's id counter, shared by agents and locations. */
    var nextId: nat
    /** The agent nodes of the model's environment, with the agent class of each. */
    var envAgents: map<Id, string>
    /** The locations each agent belongs to, in joining order. */
    var joined: map<Id, seq<LocInfo>>
    /** Agent attributes: record columns and per-class descriptors. */
    var attrs: map<(Id, string), Datum>
    const scratch: Scratch

    /** Every id in use is below the counter, so the next id is fresh. */
    ghost predicate Valid()
      reads this
    {
      (forall a :: a in envAgents ==> a < nextId) &&
      (forall a, l :: a in joined && l in joined[a] ==> l.uid < nextId) &&
      (locations.Some? ==> forall l :: l in locations.value ==> l.info.uid < nextId)
    }

    /** `__init__`: a maker over the given model, or over a new empty one.
        It has no agent list and no location list of its own yet. */
    constructor (model: Option<ModelState>)
      requires model.Some? ==> CounterAhead(model.value)
      ensures Valid() && fresh(scratch) && scratch.values == map[]
      ensures agents.None? && locations.None?
      ensures var m := if model.Some? then model.value else EmptyModel;
        nextId == m.nextId && envAgents == m.envAgents && joined == m.joined && attrs == m.attrs
    {
      var m := if model.Some? then model.value else EmptyModel;
      agents := None;
      locations := None;
      nextId := m.nextId;
      envAgents := m.envAgents;
      joined := m.joined;
      attrs := m.attrs;
      scratch := new Scratch();
    }

    function Joined(a: Id): seq<LocInfo>
      reads this
    {
      JoinedOf(joined, a)
    }

    /** The agent list, the location list and the agent nodes together. */
    function Rosters(): (Option<seq<Id>>, Option<seq<Loc>>, map<Id, string>)
      reads this
    {
      (agents, locations, envAgents)
    }

    /** `_get_mother_group_id`: counts the agent's locations of the nesting
        class, remembering the last; `warned` is the warning for more than one. */
    method GetMotherGroupId(a: Id, c: LocationClass) returns (id: string, warned: bool)
      ensures id == MotherOf(joined, c.nest, a)
      ensures warned <==> c.nest.Some? && CountOfClass(Joined(a), c.nest.value) > 1
    {
      if c.nest.None? {
        return "None", false;
      }
      var nest := c.nest.value;
      var locs := Joined(a);
      var count := 0;
      var mother: Option<LocInfo> := None;
      for i := 0 to |locs|
        invariant count == CountOfClass(locs[..i], nest)
        invariant mother == LastOfClass(locs[..i], nest)
      {
        assert locs[..i + 1][..i] == locs[..i];
        if locs[i].cls == nest {
          mother := Some(locs[i]);
          count := count + 1;
        }
      }
      assert locs[..|locs|] == locs;
      LastOfClassSpec(locs, nest);
      CountOfClassZero(locs, nest);
      warned := count > 1;
      if count == 0 {
        return "None", warned;
      }
      id := MotherText(mother.value);
    }

    /** `_get_split_values`: stores every listed agent's group values and
        returns their union. */
    method GetSplitValues(list: seq<Id>, c: LocationClass, nesting: bool) returns (values: set<Val>)
      modifies scratch
      ensures forall v :: v in values <==> exists a :: a in list && v in GroupValues(joined, c, a, nesting)
      ensures forall a :: a in list ==> a in scratch.values && scratch.values[a] == GroupValues(joined, c, a, nesting)
      ensures forall a :: a in list ==> forall v :: v in scratch.values[a] ==> v in values
      ensures forall a :: a !in list ==> (a in scratch.values <==> a in old(scratch.values))
      ensures forall a :: a !in list && a in scratch.values ==> scratch.values[a] == old(scratch.values)[a]
    {
      values := {};
      ghost var seen: set<Id> := {};
      for i := 0 to |list|
        invariant forall a :: a in seen <==> a in list[..i]
        invariant SplitState(joined, c, nesting, old(scratch.values), seen, values, scratch.values)
      {
        var a := list[i];
        var vs := GroupValues(joined, c, a, nesting);
        assert list[..i + 1] == list[..i] + [a];
        SplitStateStep(joined, c, nesting, old(scratch.values), seen, values, scratch.values, a);
        scratch.values := scratch.values[a := vs];
        values := values + (set v | v in vs);
        seen := seen + {a};
      }
      assert list[..|list|] == list;
    }

    /** `_get_group_value_affiliated_agents`: the listed agents whose stored
        group values contain `gv`, in arbitrary order. */
    method GetGroupValueAgents(list: seq<Id>, gv: Val) returns (r: seq<Id>)
      requires forall a :: a in list ==> a in scratch.values
      ensures multiset(r) == multiset(WithValue(scratch.values, list, gv))
      ensures forall a :: a in r <==> a in list && gv in scratch.values[a]
    {
      var found := WithValue(scratch.values, list, gv);
      r :| multiset(r) == multiset(found);
      assert forall a :: a in r <==> a in multiset(found);
    }

    /** The groups one melted class forms over a mother group's agents:
        its filter-passers, split by its own split values (not nested), each
        value's agents packed by `_get_groups`, all groups in arbitrary order.
        An agent is grouped exactly when the class admits it and it has at
        least one split value. */
    method MeltClassGroups(nested: seq<Id>, mc: LocationClass) returns (groups: seq<seq<Id>>)
      modifies scratch
      ensures forall x :: x in Flatten(groups) <==> x in nested && mc.filter(x) && AsList(mc.split(x)) != []
      ensures forall g, x :: g in groups && x in g ==> x in nested && mc.filter(x)
      ensures forall a :: a in old(scratch.values) ==> a in scratch.values
    {
      var maff := Filter(nested, mc.filter);
      var values := GetSplitValues(maff, mc, false);
      var acc := GatherGroups(mc, maff, values);
      groups :| multiset(groups) == multiset(acc);
      GatheredAll(mc, maff, acc, values, groups);
    }

    /** The loop over one melted class's split values: each value's agents
        packed by `_get_groups`, the groups collected in one list. */
    method GatherGroups(mc: LocationClass, maff: seq<Id>, values: set<Val>) returns (acc: seq<seq<Id>>)
      requires forall a :: a in maff ==> a in scratch.values && scratch.values[a] == AsList(mc.split(a))
      ensures Gathered(mc, maff, acc, values)
    {
      acc := [];
      var rest := values;
      ghost var done: set<Val> := {};
      while rest != {}
        invariant rest !! done && rest + done == values
        invariant Gathered(mc, maff, acc, done)
        decreases rest
      {
        var v :| v in rest;
        var gva := GetGroupValueAgents(maff, v);
        var gs := GetGroups(mc, gva);
        GatheredStep(mc, maff, acc, done, v, gva, gs);
        acc := acc + gs;
        rest, done := rest - {v}, done + {v};
      }
    }

    /** The merge for one mother id: every melted class's groups over the
        mother's agents (`lists`, one entry per melted class), merged by
        position. */
    method MeltForMother(nested: seq<Id>, c: LocationClass) returns (r: seq<seq<Id>>, ghost lists: seq<seq<seq<Id>>>)
      requires c.melt != []
      modifies scratch
      ensures MeltFormed(c.melt, nested, lists)
      ensures |r| == MeltLength(lists, c.multiMelt)
      ensures forall i :: 0 <= i < |r| ==> r[i] == MeltedAt(lists, i, c.multiMelt)
      ensures forall g, x :: g in r && x in g ==> x in nested && AdmittedBy(c.melt, x) > 0
      ensures forall a :: a in old(scratch.values) ==> a in scratch.values
    {
      var ls: seq<seq<seq<Id>>> := [];
      for k := 0 to |c.melt|
        invariant |ls| == k
        invariant forall p :: 0 <= p < k ==> MeltClassFormed(c.melt[p], nested, ls[p])
        invariant forall a :: a in old(scratch.values) ==> a in scratch.values
      {
        var gs := MeltClassGroups(nested, c.melt[k]);
        ls := ls + [gs];
      }
      r := Melt(ls, c.multiMelt);
      lists := ls;
      forall g, x | g in r && x in g ensures x in nested && AdmittedBy(c.melt, x) > 0 {
        var i :| 0 <= i < |r| && r[i] == g;
        MeltedFrom(lists, i, c.multiMelt, x);
        var k, q :| 0 <= k < |lists| && 0 <= q < |lists[k]| && x in lists[k][q];
        assert lists[k][q] in lists[k];
      }
    }

    /** `_get_melted_groups`: for each mother id among the agents, the merge
        of the melted classes' groups over that mother's agents. Only the
        merge for the last mother id handled (`m`) is returned, so all
        returned agents share one mother id; `lists` are the melted classes'
        groups over the agents with that mother id. */
    method GetMeltedGroups(list: seq<Id>, c: LocationClass)
      returns (r: seq<seq<Id>>, ghost m: string, ghost lists: seq<seq<seq<Id>>>)
      requires c.melt != []
      modifies scratch
      ensures list != [] ==> exists a :: a in list && MotherOf(joined, c.nest, a) == m
      ensures list != [] ==> MeltFormed(c.melt, OfMother(list, joined, c.nest, m), lists)
      ensures list != [] ==> |r| == MeltLength(lists, c.multiMelt)
      ensures list != [] ==> forall i :: 0 <= i < |r| ==> r[i] == MeltedAt(lists, i, c.multiMelt)
      ensures forall g, x :: g in r && x in g ==> x in list && AdmittedBy(c.melt, x) > 0
      ensures forall g, h, x, y :: g in r && h in r && x in g && y in h ==>
        MotherOf(joined, c.nest, x) == MotherOf(joined, c.nest, y)
      ensures forall a :: a in old(scratch.values) ==> a in scratch.values
    {
      var j := joined;
      var mothers := set a | a in list :: MotherOf(j, c.nest, a);
      ghost var all := mothers;
      ghost var picked := false;
      m, lists := "", [];
      r := [];
      while mothers != {}
        invariant mothers <= all
        invariant !picked ==> mothers == all
        invariant picked ==> m in all && MeltFormed(c.melt, OfMother(list, j, c.nest, m), lists)
        invariant picked ==> |r| == MeltLength(lists, c.multiMelt)
        invariant picked ==> forall i :: 0 <= i < |r| ==> r[i] == MeltedAt(lists, i, c.multiMelt)
        invariant forall g, x :: g in r && x in g ==> x in list && AdmittedBy(c.melt, x) > 0
        invariant SameMother(j, c.nest, r)
        invariant forall a :: a in old(scratch.values) ==> a in scratch.values
        decreases mothers
      {
        var mm :| mm in mothers;
        var nested := OfMother(list, j, c.nest, mm);
        r, lists := MeltForMother(nested, c);
        m, picked := mm, true;
        mothers := mothers - {mm};
      }
      if list != [] {
        assert list[0] in list && MotherOf(j, c.nest, list[0]) in all;
      }
    }

    /** One `location_cls(model)` with its group and subgroup values and ids,
        filled with the members. */
    method BuildLocation(c: LocationClass, gv: Val, sv: Val, i: nat, j: nat, members: seq<Id>) returns (loc: Loc)
      requires Valid()
      modifies this
      ensures Valid()
      ensures loc == Loc(LocInfo(old(nextId), c.name, gv, sv, i, j), members)
      ensures nextId == old(nextId) + 1
      ensures Rosters() == old(Rosters())
      ensures Extended(old(joined), joined, [loc])
      ensures Labelled(old(attrs), attrs, [loc])
    {
      var info := LocInfo(nextId, c.name, gv, sv, i, j);
      joined, attrs := AddMembers(joined, attrs, info, members);
      nextId := nextId + 1;
      loc := Loc(info, members);
      OneLocation(old(attrs), attrs, loc);
    }

    /** The locations of one group: one per distinct subsplit value of its
        members, in arbitrary order, numbered by `j`. A group whose members
        have no subsplit value yields none. */
    method CreateSubLocations(c: LocationClass, gv: Val, i: nat, group: seq<Id>) returns (locs: seq<Loc>)
      requires Valid()
      modifies this
      ensures Valid()
      ensures Rosters() == old(Rosters())
      ensures nextId == old(nextId) + |locs|
      ensures ValuesOf(locs) == SubValues(c, group) && DistinctValues(locs)
      ensures forall k :: 0 <= k < |locs| ==> IsSubLocation(c, gv, i, group, old(nextId), locs[k], k)
      ensures Extended(old(joined), joined, locs)
      ensures Labelled(old(attrs), attrs, locs)
    {
      var values := SubValues(c, group);
      var rest := values;
      ghost var done: set<Val> := {};
      locs := [];
      while rest != {}
        invariant done <= values && rest == values - done
        invariant Valid() && Rosters() == old(Rosters())
        invariant nextId == old(nextId) + |locs|
        invariant SubState(c, gv, i, group, old(nextId), old(joined), old(attrs), joined, attrs, locs, done)
        decreases rest
      {
        var sv :| sv in rest;
        var loc := AddSubLocation(c, gv, i, group, old(nextId), old(joined), old(attrs), locs, done, sv);
        locs := locs + [loc];
        rest, done := rest - {sv}, done + {sv};
      }
    }

    /** One pass of the sub-location loop: the location for subgroup value
        `sv`, holding the group's agents whose subsplit lists it. */
    method AddSubLocation(c: LocationClass, gv: Val, i: nat, group: seq<Id>, ghost base: nat,
                          ghost j0: map<Id, seq<LocInfo>>, ghost a0: map<(Id, string), Datum>,
                          locs: seq<Loc>, ghost done: set<Val>, sv: Val) returns (loc: Loc)
      requires Valid() && nextId == base + |locs|
      requires SubState(c, gv, i, group, base, j0, a0, joined, attrs, locs, done)
      requires sv !in done && sv in SubValues(c, group)
      modifies this
      ensures Valid() && Rosters() == old(Rosters()) && nextId == old(nextId) + 1
      ensures SubState(c, gv, i, group, base, j0, a0, joined, attrs, locs + [loc], done + {sv})
    {
      var members := SubMembers(c, group, sv);
      var a :| a in group && sv in AsList(c.subsplit(group, a));
      assert a in members;
      ghost var jb, ab := joined, attrs;
      loc := BuildLocation(c, gv, sv, i, |locs|, members);
      SubBuiltStep(c, gv, i, group, base, locs, done, sv, loc);
      LabelledTrans(a0, ab, attrs, locs, [loc]);
      ExtendedTrans(j0, jb, joined, locs, [loc]);
    }

    /** The loop over the groups of one group value: each group, numbered
        `i`, becomes its sub-locations. */
    method PlaceGroups(c: LocationClass, gv: Val, groups: seq<seq<Id>>) returns (locs: seq<Loc>)
      requires Valid()
      modifies this
      ensures Valid() && Rosters() == old(Rosters())
      ensures nextId == old(nextId) + |locs|
      ensures PlaceState(c, gv, groups, old(nextId), old(joined), old(attrs), joined, attrs, locs, |groups|)
    {
      locs := [];
      for i := 0 to |groups|
        invariant Valid() && Rosters() == old(Rosters())
        invariant nextId == old(nextId) + |locs|
        invariant PlaceState(c, gv, groups, old(nextId), old(joined), old(attrs), joined, attrs, locs, i)
      {
        var sub := PlaceGroup(c, gv, groups, i, old(nextId), old(joined), old(attrs), locs);
        locs := locs + sub;
      }
    }

    /** One iteration of the loop over the groups: the sub-locations of group `i`. */
    method PlaceGroup(c: LocationClass, gv: Val, groups: seq<seq<Id>>, i: nat, ghost base: nat,
                      ghost j0: map<Id, seq<LocInfo>>, ghost a0: map<(Id, string), Datum>, ghost locs: seq<Loc>)
      returns (sub: seq<Loc>)
      requires Valid() && i < |groups| && nextId == base + |locs|
      requires PlaceState(c, gv, groups, base, j0, a0, joined, attrs, locs, i)
      modifies this
      ensures Valid() && Rosters() == old(Rosters())
      ensures nextId == base + |locs + sub|
      ensures PlaceState(c, gv, groups, base, j0, a0, joined, attrs, locs + sub, i + 1)
    {
      sub := CreateSubLocations(c, gv, i, groups[i]);
      PlaceStateStep(c, gv, groups, base, j0, a0, old(joined), old(attrs), joined, attrs, locs, i, sub);
    }

    /** The groups of one group value: packed by `_get_groups` from the
        affiliated agents carrying it, or merged from the melted classes;
        their agents are listed agents the class admits. */
    method GroupsOf(c: LocationClass, list: seq<Id>, aff: seq<Id>, gv: Val, ghost j0: map<Id, seq<LocInfo>>)
      returns (groups: seq<seq<Id>>)
      requires aff == ClassAffiliated(c, list) && ScratchReady(c, aff, j0, scratch.values)
      modifies scratch
      ensures GroupsFor(c, list, j0, gv, groups)
      ensures ScratchReady(c, aff, j0, scratch.values)
    {
      var gva := GetGroupValueAgents(aff, gv);
      if c.melt == [] {
        groups := GetGroups(c, gva);
        assert Packing(c, gva, groups);
        ReadyValueAgents(c, aff, j0, scratch.values, gv);
        PackingPermuted(c, gva, ValueAgents(j0, c, aff, gv), groups);
        GroupsFrom(groups, gva);
      } else {
        ghost var m, lists;
        groups, m, lists := GetMeltedGroups(gva, c);
      }
    }

    /** One location class of `create_locations`: its affiliated agents,
        their group values (nested), and for each group value in arbitrary
        order the groups (`grouping`) and their sub-locations. */
    method CreateClassLocations(c: LocationClass, list: seq<Id>)
      returns (created: seq<Loc>, ghost grouping: map<Val, seq<seq<Id>>>)
      requires Valid()
      modifies this, scratch
      ensures Valid() && Rosters() == old(Rosters())
      ensures nextId == old(nextId) + |created|
      ensures ClassBuilt(c, list, old(joined), old(nextId), created)
      ensures ClassPlaced(c, list, old(joined), created, grouping)
      ensures Extended(old(joined), joined, created)
      ensures Labelled(old(attrs), attrs, created)
    {
      var aff := ClassAffiliated(c, list);
      var values := GetSplitValues(aff, c, true);
      created, grouping := PlaceValues(c, list, aff, values);
      ClassPlacedFrom(c, list, old(joined), created, grouping, values);
    }

    /** The loop over the group values of one class, in arbitrary order. */
    method PlaceValues(c: LocationClass, list: seq<Id>, aff: seq<Id>, values: set<Val>)
      returns (created: seq<Loc>, ghost grouping: map<Val, seq<seq<Id>>>)
      requires Valid()
      requires aff == ClassAffiliated(c, list) && ScratchReady(c, aff, joined, scratch.values)
      modifies this, scratch
      ensures Valid() && Rosters() == old(Rosters())
      ensures nextId == old(nextId) + |created|
      ensures grouping.Keys == values
      ensures ClassState(c, list, old(joined), old(nextId), old(attrs), joined, attrs, created, grouping)
    {
      ghost var j0 := joined;
      created, grouping := [], map[];
      var rest := values;
      while rest != {}
        invariant Valid() && Rosters() == old(Rosters())
        invariant nextId == old(nextId) + |created|
        invariant grouping.Keys !! rest && grouping.Keys + rest == values
        invariant ClassState(c, list, j0, old(nextId), old(attrs), joined, attrs, created, grouping)
        invariant ScratchReady(c, aff, j0, scratch.values)
        decreases rest
      {
        var gv :| gv in rest;
        ghost var groups;
        var more;
        more, groups := PlaceValue(c, list, aff, gv, j0, old(nextId), old(attrs), created, grouping);
        created, grouping := created + more, grouping[gv := groups];
        rest := rest - {gv};
      }
    }

    /** One pass of the group-value loop: the groups of agents with value
        `gv` and their sub-locations. */
    method PlaceValue(c: LocationClass, list: seq<Id>, aff: seq<Id>, gv: Val, ghost j0: map<Id, seq<LocInfo>>,
                      ghost base: nat, ghost a0: map<(Id, string), Datum>, created: seq<Loc>,
                      ghost grouping: map<Val, seq<seq<Id>>>)
      returns (more: seq<Loc>, ghost groups: seq<seq<Id>>)
      requires Valid() && nextId == base + |created|
      requires ClassState(c, list, j0, base, a0, joined, attrs, created, grouping) && gv !in grouping
      requires aff == ClassAffiliated(c, list) && ScratchReady(c, aff, j0, scratch.values)
      modifies this, scratch
      ensures Valid() && Rosters() == old(Rosters()) && nextId == old(nextId) + |more|
      ensures GroupsFor(c, list, j0, gv, groups)
      ensures ClassState(c, list, j0, base, a0, joined, attrs, created + more, grouping[gv := groups])
      ensures ScratchReady(c, aff, j0, scratch.values)
    {
      var gs := GroupsOf(c, list, aff, gv, j0);
      ghost var jb, ab := joined, attrs;
      more := PlaceGroups(c, gv, gs);
      groups := gs;
      ClassStateStep(c, list, j0, base, a0, jb, ab, joined, attrs, created, grouping, gv, gs, more);
    }

    /** The loop over the location classes of `create_locations`: the agent
        list is shuffled before each class (the maker's own list in place,
        when it is the one used), then the class's locations are built. */
    method CreateEachClass(classes: seq<LocationClass>, list: seq<Id>, shuffleOwn: bool)
      returns (created: seq<Loc>, ghost runs: seq<ClassRun>)
      requires Valid()
      requires shuffleOwn ==> agents == Some(list)
      modifies this, scratch
      ensures Valid() && envAgents == old(envAgents) && locations == old(locations)
      ensures nextId == old(nextId) + |created|
      ensures |runs| == |classes|
      ensures EachState(classes, list, old(nextId), old(joined), old(attrs), joined, attrs, created, runs)
      ensures shuffleOwn ==> agents.Some? && multiset(agents.value) == multiset(list)
      ensures !shuffleOwn ==> agents == old(agents)
    {
      var order := list;
      created, runs := [], [];
      for k := 0 to |classes|
        invariant Valid() && envAgents == old(envAgents) && locations == old(locations)
        invariant nextId == old(nextId) + |created|
        invariant multiset(order) == multiset(list)
        invariant shuffleOwn ==> agents == Some(order)
        invariant !shuffleOwn ==> agents == old(agents)
        invariant |runs| == k
        invariant EachState(classes, list, old(nextId), old(joined), old(attrs), joined, attrs, created, runs)
      {
        order :| multiset(order) == multiset(list);
        if shuffleOwn {
          agents := Some(order);
        }
        var more;
        ghost var run;
        more, run := CreateClassRun(classes, k, list, order, old(nextId), old(joined), old(attrs), created, runs);
        created, runs := created + more, runs + [run];
      }
    }

    /** One pass of `create_locations`: the locations of the next class,
        built for the shuffled list `order`. */
    method CreateClassRun(classes: seq<LocationClass>, k: nat, list: seq<Id>, order: seq<Id>, ghost base: nat,
                          ghost j0: map<Id, seq<LocInfo>>, ghost a0: map<(Id, string), Datum>,
                          ghost created: seq<Loc>, ghost runs: seq<ClassRun>)
      returns (more: seq<Loc>, ghost run: ClassRun)
      requires Valid() && |runs| == k < |classes| && multiset(order) == multiset(list)
      requires nextId == base + |created|
      requires EachState(classes, list, base, j0, a0, joined, attrs, created, runs)
      modifies this, scratch
      ensures Valid() && Rosters() == old(Rosters())
      ensures nextId == old(nextId) + |more|
      ensures EachState(classes, list, base, j0, a0, joined, attrs, created + more, runs + [run])
    {
      ghost var grouping;
      more, grouping := CreateClassLocations(classes[k], order);
      run := ClassRun(order, old(joined), grouping, more);
      EachStateStep(classes, list, order, base, j0, a0, old(joined), old(attrs), joined, attrs,
                    created, runs, grouping, more);
    }

    /** `create_locations`: optionally drops the earlier locations, resets
        every listed agent's class attributes, builds the locations of each
        class in turn (shuffling the agent list before each), appends them to
        the maker's locations and discards the temporary group values. Fails,
        after clearing, when there is no agent list. */
    method CreateLocations(classes: seq<LocationClass>, agentsArg: Option<seq<Id>>, clear: bool)
      returns (r: Result<seq<Loc>, MakerError>, ghost created: seq<Loc>, ghost runs: seq<ClassRun>)
      requires Valid()
      modifies this, scratch
      ensures Valid() && envAgents == old(envAgents)
      ensures r.Err? <==> agentsArg.None? && old(agents).None?
      ensures r.Err? ==> (r.error == NoAgents && nextId == old(nextId) && agents == old(agents) &&
        locations == (if clear then None else old(locations)) && joined == (if clear then map[] else old(joined)))
      ensures r.Ok? ==> locations == Some(r.value) && r.value == Kept(clear, old(locations)) + created
      ensures r.Ok? ==> Built(classes, ListOf(agentsArg, old(agents)), old(nextId),
        if clear then map[] else old(joined), Reset(old(attrs), ListOf(agentsArg, old(agents)), classes),
        nextId, joined, attrs, created, runs)
      ensures r.Ok? ==> forall a :: a in ListOf(agentsArg, old(agents)) ==> a !in scratch.values
      ensures agentsArg.Some? ==> agents == old(agents)
      ensures agentsArg.None? && r.Ok? ==> agents.Some? && multiset(agents.value) == multiset(old(agents).value)
    {
      var arg := if agentsArg.Some? then agentsArg else agents;
      var kept := Kept(clear, locations);
      if clear {
        joined := map[];
        locations := None;
      }
      if arg.None? {
        return Err(NoAgents), [], [];
      }
      ghost var list, j0 := arg.value, joined;
      assert list == ListOf(agentsArg, old(agents)) && j0 == (if clear then map[] else old(joined));
      var made;
      made, runs := BuildAll(classes, arg.value, agentsArg.None?);
      created := made;
      locations := Some(kept + made);
      r := Ok(kept + made);
    }

    /** The work of `create_locations` once the agent list is known: reset
        the class attributes, build every class's locations, then drop the
        temporary group values. */
    method BuildAll(classes: seq<LocationClass>, list: seq<Id>, shuffleOwn: bool)
      returns (made: seq<Loc>, ghost runs: seq<ClassRun>)
      requires Valid() && (shuffleOwn ==> agents == Some(list))
      modifies this, scratch
      ensures Valid() && envAgents == old(envAgents) && locations == old(locations)
      ensures Built(classes, list, old(nextId), old(joined), Reset(old(attrs), list, classes), nextId, joined, attrs, made, runs)
      ensures !shuffleOwn ==> agents == old(agents)
      ensures shuffleOwn ==> agents.Some? && multiset(agents.value) == multiset(list)
      ensures forall a :: a in list ==> a !in scratch.values
    {
      attrs := Reset(attrs, list, classes);
      made, runs := CreateEachClass(classes, list, shuffleOwn);
      DropScratch(list);
    }

    /** The deletion of the temporary group values of the listed agents. */
    method DropScratch(list: seq<Id>)
      modifies scratch
      ensures forall a :: a in list ==> a !in scratch.values
      ensures forall a :: a in scratch.values <==> a in old(scratch.values) && a !in list
    {
      scratch.values := map a | a in scratch.values && a !in list :: scratch.values[a];
    }

    /** An agent constructor: a fresh id from the model's counter, and the
        agent registered in the environment with its class. */
    method NewAgent(kind: string) returns (id: Id)
      requires Valid()
      modifies this
      ensures Valid()
      ensures id == old(nextId) && nextId == old(nextId) + 1 && id !in old(envAgents)
      ensures envAgents == old(envAgents)[id := kind]
      ensures agents == old(agents) && locations == old(locations) && joined == old(joined) && attrs == old(attrs)
    {
      id := nextId;
      nextId := nextId + 1;
      envAgents := envAgents[id := kind];
    }

    /** `n` agents of the default class, none for a negative count. */
    method CountedAgents(kind: string, n: int) returns (made: seq<Id>)
      requires Valid()
      modifies this
      ensures Valid() && attrs == old(attrs)
      ensures agents == old(agents) && locations == old(locations) && joined == old(joined)
      ensures |made| == Max(n, 0) && nextId == old(nextId) + |made|
      ensures forall k :: 0 <= k < |made| ==> made[k] == old(nextId) + k
      ensures Registered(old(envAgents), envAgents, old(nextId), |made|)
      ensures forall k :: 0 <= k < |made| ==> envAgents[made[k]] == kind
    {
      made := [];
      for k := 0 to Max(n, 0)
        invariant Valid() && nextId == old(nextId) + k && |made| == k && attrs == old(attrs)
        invariant agents == old(agents) && locations == old(locations) && joined == old(joined)
        invariant forall i :: 0 <= i < k ==> made[i] == old(nextId) + i
        invariant Registered(old(envAgents), envAgents, old(nextId), k)
        invariant forall i :: 0 <= i < k ==> envAgents[made[i]] == kind
      {
        var id := NewAgent(kind);
        made := made + [id];
      }
    }

    /** `create_agents`: optionally removes every agent from the environment
        (with its memberships) and forgets the agent list; then makes one
        agent per record, or `n` agents of the default class, or fails when
        there is neither; on success appends the new agents to the maker's
        list and returns them. */
    method CreateAgents(kind: string, classAttr: Option<string>, classDict: Option<map<Datum, string>>,
                        df: Option<Table>, n: Option<int>, clear: bool) returns (r: Result<seq<Id>, MakerError>)
      requires Valid()
      requires df.Some? ==> Rectangular(df.value)
      modifies this
      ensures Valid() && locations == old(locations)
      ensures joined == (if clear then map[] else old(joined))
      ensures df.None? && n.None? ==> r == Err(NoSource) && nextId == old(nextId)
      ensures df.Some? ==> (r.Err? <==> RowsError(df.value, classAttr, classDict, kind, 0).Some?)
      ensures df.Some? && r.Err? ==> r.error == RowsError(df.value, classAttr, classDict, kind, 0).value
      ensures df.None? && n.Some? ==> r.Ok?
      ensures r.Err? ==> agents == (if clear then None else old(agents))
      ensures r.Ok? ==> |r.value| == (if df.Some? then |df.value.rows| else Max(n.value, 0))
      ensures r.Ok? ==> nextId == old(nextId) + |r.value| && forall k :: 0 <= k < |r.value| ==> r.value[k] == old(nextId) + k
      ensures r.Ok? ==> agents == Some((if clear || old(agents).None? then [] else old(agents).value) + r.value)
      ensures r.Ok? ==> Registered(if clear then map[] else old(envAgents), envAgents, old(nextId), |r.value|)
      ensures r.Ok? ==> forall k :: 0 <= k < |r.value| ==>
        (if df.Some? then ClassOf(df.value.rows[k], classAttr, classDict, kind) else Ok(kind)) == Ok(envAgents[r.value[k]])
      ensures r.Ok? && df.Some? ==> RowsStored(old(attrs), attrs, df.value, old(nextId), |r.value|)
      ensures r.Ok? && df.None? ==> attrs == old(attrs)
    {
      if clear {
        envAgents := map[];
        joined := map[];
        agents := None;
      }
      var made: seq<Id>;
      if df.Some? {
        var rows, next, env, at := AgentsFromRows(df.value, classAttr, classDict, kind, nextId, envAgents, attrs);
        nextId, envAgents, attrs := next, env, at;
        if rows.Err? {
          return Err(rows.error);
        }
        made := rows.value;
      } else if n.Some? {
        made := CountedAgents(kind, n.value);
      } else {
        return Err(NoSource);
      }
      agents := Some((if agents.None? then [] else agents.value) + made);
      r := Ok(made);
    }
  }

  /** One record of `create_agents`, on the counter, the agent nodes and the
      attributes: the agent of the record's class, then one attribute per
      column, refusing a column called `id`. */
  method AgentFromRow(t: Table, k: nat, classAttr: Option<string>, classDict: Option<map<Datum, string>>, kind: string,
                      next0: nat, e0: map<Id, string>, a0: map<(Id, string), Datum>)
    returns (r: Result<Id, MakerError>, next: nat, e: map<Id, string>, a: map<(Id, string), Datum>)
    requires Rectangular(t) && k < |t.rows|
    ensures ClassOf(t.rows[k], classAttr, classDict, kind).Err? ==>
      r == Err(ClassOf(t.rows[k], classAttr, classDict, kind).error) && next == next0 && e == e0 && a == a0
    ensures ClassOf(t.rows[k], classAttr, classDict, kind).Ok? ==>
      next == next0 + 1 && e == e0[next0 := ClassOf(t.rows[k], classAttr, classDict, kind).value]
    ensures r.Err? <==> ClassOf(t.rows[k], classAttr, classDict, kind).Err? || "id" in t.columns
    ensures ClassOf(t.rows[k], classAttr, classDict, kind).Ok? && "id" in t.columns ==> r == Err(IdColumn)
    ensures r.Ok? ==> r.value == next0 && e == e0[next0 := ClassOf(t.rows[k], classAttr, classDict, kind).value]
    ensures r.Ok? ==> forall x, n :: x != next0 ==> Lookup(a, x, n) == Lookup(a0, x, n)
    ensures r.Ok? ==> forall n :: Lookup(a, next0, n) == if n in t.columns then Some(t.rows[k][n]) else Lookup(a0, next0, n)
  {
    var row := t.rows[k];
    var cls := ClassOf(row, classAttr, classDict, kind);
    next, e, a := next0, e0, a0;
    if cls.Err? {
      return Err(cls.error), next, e, a;
    }
    var id := next;
    next, e := next + 1, e[id := cls.value];
    assert forall col :: col in t.columns ==> col in row;
    for i := 0 to |t.columns|
      invariant "id" !in t.columns[..i]
      invariant forall x, n :: x != id ==> Lookup(a, x, n) == Lookup(a0, x, n)
      invariant forall n :: (Lookup(a, id, n) == if n in t.columns[..i] then Some(row[n]) else Lookup(a0, id, n))
    {
      var col := t.columns[i];
      if col == "id" {
        return Err(IdColumn), next, e, a;
      }
      assert t.columns[..i + 1] == t.columns[..i] + [col];
      a := a[(id, col) := row[col]];
    }
    assert t.columns[..|t.columns|] == t.columns;
    r := Ok(id);
  }

  /** The agents of the records, one per row in order, stopping at the first
      row that fails; the agents made before a failure stay. */
  method AgentsFromRows(t: Table, classAttr: Option<string>, classDict: Option<map<Datum, string>>, kind: string,
                        next0: nat, e0: map<Id, string>, a0: map<(Id, string), Datum>)
    returns (r: Result<seq<Id>, MakerError>, next: nat, e: map<Id, string>, a: map<(Id, string), Datum>)
    requires Rectangular(t)
    requires forall x :: x in e0 ==> x < next0
    ensures next0 <= next && forall x :: x in e ==> x < next
    ensures r.Err? <==> RowsError(t, classAttr, classDict, kind, 0).Some?
    ensures r.Err? ==> r.error == RowsError(t, classAttr, classDict, kind, 0).value
    ensures r.Ok? ==> |r.value| == |t.rows| && next == next0 + |t.rows|
    ensures r.Ok? ==> forall k :: 0 <= k < |t.rows| ==> r.value[k] == next0 + k
    ensures r.Ok? ==> Registered(e0, e, next0, |t.rows|)
    ensures r.Ok? ==> forall k :: 0 <= k < |t.rows| ==> ClassOf(t.rows[k], classAttr, classDict, kind) == Ok(e[r.value[k]])
    ensures r.Ok? ==> RowsStored(a0, a, t, next0, |t.rows|)
  {
    next, e, a := next0, e0, a0;
    var made: seq<Id> := [];
    for k := 0 to |t.rows|
      invariant next == next0 + k
      invariant RowsError(t, classAttr, classDict, kind, 0) == RowsError(t, classAttr, classDict, kind, k)
      invariant RowsMade(t, classAttr, classDict, kind, next0, e0, a0, k, made, e, a)
    {
      var one;
      ghost var ab, eb := a, e;
      one, next, e, a := AgentFromRow(t, k, classAttr, classDict, kind, next, e, a);
      if one.Err? {
        return Err(one.error), next, e, a;
      }
      RowsMadeStep(t, classAttr, classDict, kind, next0, e0, a0, k, made, eb, ab, e, a);
      made := made + [one.value];
    }
    r := Ok(made);
  }

  /** `j1` and `a1` are `j0` and `a0` after the agents of `seen` joined the
      location `info` and stored its descriptor. */
  ghost predicate MembersAdded(j0: map<Id, seq<LocInfo>>, a0: map<(Id, string), Datum>, info: LocInfo, seen: set<Id>,
                               j1: map<Id, seq<LocInfo>>, a1: map<(Id, string), Datum>)
  {
    Joins(j0, info, seen, j1) && Labels(a0, info, seen, a1)
  }

  ghost predicate Joins(j0: map<Id, seq<LocInfo>>, info: LocInfo, seen: set<Id>, j1: map<Id, seq<LocInfo>>)
  {
    (forall a :: JoinedOf(j1, a) == JoinedOf(j0, a) + (if a in seen then [info] else [])) &&
    (forall a, l :: a in j1 && l in j1[a] ==> l.uid <= info.uid)
  }

  ghost predicate Labels(a0: map<(Id, string), Datum>, info: LocInfo, seen: set<Id>, a1: map<(Id, string), Datum>)
  {
    forall a, n :: Lookup(a1, a, n) == (if a in seen && n == info.cls then Some(Label(info)) else Lookup(a0, a, n))
  }

  /** One agent joining: it is recorded once, however often it is listed. */
  function JoinOnce(j: map<Id, seq<LocInfo>>, a: Id, info: LocInfo): map<Id, seq<LocInfo>>
  {
    if info in JoinedOf(j, a) then j else j[a := JoinedOf(j, a) + [info]]
  }

  lemma JoinOnceStep(j0: map<Id, seq<LocInfo>>, info: LocInfo, seen: set<Id>, j1: map<Id, seq<LocInfo>>, x: Id)
    requires forall a, l :: a in j0 && l in j0[a] ==> l.uid < info.uid
    requires Joins(j0, info, seen, j1)
    ensures Joins(j0, info, seen + {x}, JoinOnce(j1, x, info))
  {
    var j2 := JoinOnce(j1, x, info);
    if x in j0 {
      assert forall l :: l in j0[x] ==> l.uid < info.uid;
    }
    assert info !in JoinedOf(j0, x);
    if info !in JoinedOf(j1, x) {
      assert x !in seen;
      forall a, l: LocInfo | a in j2 && l in j2[a] ensures l.uid <= info.uid {
        if a == x && l !in JoinedOf(j1, x) {
          assert l == info;
        }
      }
    }
  }

  lemma LabelStep(a0: map<(Id, string), Datum>, info: LocInfo, seen: set<Id>, a1: map<(Id, string), Datum>, x: Id)
    requires Labels(a0, info, seen, a1)
    ensures Labels(a0, info, seen + {x}, a1[(x, info.cls) := Label(info)])
  {
    var a2 := a1[(x, info.cls) := Label(info)];
    forall a, n ensures Lookup(a2, a, n) == (if a in seen + {x} && n == info.cls then Some(Label(info)) else Lookup(a0, a, n)) {
      if a != x || n != info.cls {
        assert Lookup(a2, a, n) == Lookup(a1, a, n);
      }
    }
  }

  /** The assigning loop of a new location: each member joins it once (a
      repeated member does not join twice) and stores the location's
      descriptor under the class name. */
  method AddMembers(j0: map<Id, seq<LocInfo>>, a0: map<(Id, string), Datum>, info: LocInfo, members: seq<Id>)
    returns (j1: map<Id, seq<LocInfo>>, a1: map<(Id, string), Datum>)
    requires forall a, l :: a in j0 && l in j0[a] ==> l.uid < info.uid
    ensures forall a :: JoinedOf(j1, a) == JoinedOf(j0, a) + (if a in members then [info] else [])
    ensures forall a, l :: a in j1 && l in j1[a] ==> l.uid <= info.uid
    ensures forall a, n :: Lookup(a1, a, n) == if a in members && n == info.cls then Some(Label(info)) else Lookup(a0, a, n)
  {
    j1, a1 := j0, a0;
    ghost var seen: set<Id> := {};
    for k := 0 to |members|
      invariant forall a :: a in seen <==> a in members[..k]
      invariant MembersAdded(j0, a0, info, seen, j1, a1)
    {
      var a := members[k];
      JoinOnceStep(j0, info, seen, j1, a);
      LabelStep(a0, info, seen, a1, a);
      assert members[..k + 1] == members[..k] + [a];
      if info !in JoinedOf(j1, a) {
        j1 := j1[a := JoinedOf(j1, a) + [info]];
      }
      a1 := a1[(a, info.cls) := Label(info)];
      seen := seen + {a};
    }
    assert members[..|members|] == members;
  }
}
