/** A location class as the population maker sees it: the hooks a user
    overrides to describe who joins locations of the class and how they are
    grouped, and the records of the locations it creates. */
module Policy {
  import opened Common

  /** A hook answer that may be a single value or a list of values
      (`make_it_a_list_if_it_is_no_list`). */
  datatype Split = One(v: Val) | Many(vs: seq<Val>)

  function AsList(s: Split): (r: seq<Val>)
    ensures s.One? ==> r == [s.v]
    ensures s.Many? ==> r == s.vs
  {
    match s
    case One(v) => [v]
    case Many(vs) => vs
  }

  /** The hooks and settings of a location class. `name` is the class
      itself, used both as the agents' attribute name and for the
      `isinstance` test of nesting. */
  datatype LocationClass = LocationClass(
    name: string,
    filter: Id -> bool,
    split: Id -> Split,
    stickTogether: Id -> Option<Val>,
    /** `find(agent)` on the probe location, which holds the listed agents. */
    find: (seq<Id>, Id) -> bool,
    /** `subsplit(agent)` on a location whose `group_agents` is the listed group. */
    subsplit: (seq<Id>, Id) -> Split,
    nest: Option<string>,
    melt: seq<LocationClass>,
    multiMelt: bool,
    size: Option<pos>,
    nLocations: Option<int>,
    allowOvercrowding: bool,
    /** `round_function(n / size)`, given `n` and `size`. */
    roundFunction: (nat, pos) -> int)

  type pos = x: int | x >= 1 witness 1

  /** What the maker records on a location it creates. */
  datatype LocInfo = LocInfo(uid: Id, cls: string, groupValue: Val, subgroupValue: Val, groupId: nat, subgroupId: nat)

  /** A created location and the agents added to it, in order. */
  datatype Loc = Loc(info: LocInfo, members: seq<Id>)

  function Max(a: int, b: int): int
  {
    if a >= b then a else b
  }

  /** The number of groups `_get_groups` aims for: `n_locations` when set,
      else one group when `size` is unset, else the rounded quotient of the
      agent count by `size`, but at least one. */
  function GroupTarget(c: LocationClass, n: nat): (r: int)
    ensures c.nLocations.Some? ==> r == c.nLocations.value
    ensures c.nLocations.None? ==> r >= 1
    ensures c.nLocations.None? && c.size.None? ==> r == 1
    ensures c.nLocations.None? && c.size.Some? && c.roundFunction(n, c.size.value) >= 1 ==>
      r == c.roundFunction(n, c.size.value)
  {
    match c.nLocations
    case Some(k) => k
    case None =>
      match c.size
      case None => 1
      case Some(s) => Max(c.roundFunction(n, s), 1)
  }

  // ----- stick-together keys -----

  /** `_get_stick_value`: the agent's stick-together value, or the text
      "None" followed by the agent's id when it has none. */
  function StickKey(c: LocationClass, a: Id): Val
  {
    match c.stickTogether(a)
    case None => "None" + NatToString(a)
    case Some(v) => v
  }

  /** Two agents without a stick-together value share a key only when they
      are the same agent. */
  lemma DefaultStickKeysDistinct(c: LocationClass, a: Id, b: Id)
    requires c.stickTogether(a).None? && c.stickTogether(b).None?
    requires StickKey(c, a) == StickKey(c, b)
    ensures a == b
  {
    var sa, sb := "None" + NatToString(a), "None" + NatToString(b);
    assert sa[4..] == NatToString(a);
    assert sb[4..] == NatToString(b);
    NatToStringInjective(a, b);
  }

  // ----- nesting -----

  /** The number of attached locations that are instances of class `nest`. */
  function CountOfClass(locs: seq<LocInfo>, nest: string): (r: nat)
    ensures r <= |locs|
  {
    if locs == [] then 0
    else CountOfClass(locs[..|locs| - 1], nest) + (if locs[|locs| - 1].cls == nest then 1 else 0)
  }

  /** The count is zero exactly when no attached location is of class `nest`. */
  lemma {:induction false} CountOfClassZero(locs: seq<LocInfo>, nest: string)
    ensures CountOfClass(locs, nest) == 0 <==> forall l :: l in locs ==> l.cls != nest
  {
    if locs != [] {
      var init := locs[..|locs| - 1];
      CountOfClassZero(init, nest);
      assert forall l :: l in locs ==> l in init || l == locs[|locs| - 1];
    }
  }

  /** The last attached location of class `nest`, if any. */
  function LastOfClass(locs: seq<LocInfo>, nest: string): (r: Option<LocInfo>)
    ensures r.Some? ==> r.value.cls == nest
  {
    if locs == [] then None
    else if locs[|locs| - 1].cls == nest then Some(locs[|locs| - 1])
    else LastOfClass(locs[..|locs| - 1], nest)
  }

  /** There is no last location of class `nest` exactly when none is of
      that class; otherwise it is one of them, and every later location is
      of another class. */
  lemma {:induction false} LastOfClassSpec(locs: seq<LocInfo>, nest: string)
    ensures LastOfClass(locs, nest).None? <==> forall l :: l in locs ==> l.cls != nest
    ensures LastOfClass(locs, nest).Some? ==>
      exists k :: 0 <= k < |locs| && locs[k] == LastOfClass(locs, nest).value &&
        forall j :: k < j < |locs| ==> locs[j].cls != nest
  {
    if locs != [] && locs[|locs| - 1].cls != nest {
      var init := locs[..|locs| - 1];
      LastOfClassSpec(init, nest);
      assert forall l :: l in locs ==> l in init || l == locs[|locs| - 1];
      if LastOfClass(init, nest).Some? {
        var k :| 0 <= k < |init| && init[k] == LastOfClass(init, nest).value &&
          forall j :: k < j < |init| ==> init[j].cls != nest;
        assert locs[k] == init[k];
      }
    }
  }

  /** The text of a mother location's identity: its group value and group id
      joined by a dash. */
  function MotherText(m: LocInfo): string
  {
    m.groupValue + "-" + NatToString(m.groupId)
  }

  /** `_get_mother_group_id`: "None" when the class does not nest or the
      agent belongs to no location of the nesting class; otherwise the
      identity of the last such location the agent joined. */
  function MotherGroupId(locs: seq<LocInfo>, nest: Option<string>): string
  {
    match nest
    case None => "None"
    case Some(n) =>
      match LastOfClass(locs, n)
      case None => "None"
      case Some(m) => MotherText(m)
  }

  /** The mother id is "None" exactly when there is no nesting class or no
      attached location of it; otherwise it names the last one. */
  lemma MotherGroupIdCases(locs: seq<LocInfo>, nest: Option<string>)
    ensures MotherGroupId(locs, nest) == "None" <==>
      nest.None? || forall l :: l in locs ==> l.cls != nest.value
    ensures nest.Some? && CountOfClass(locs, nest.value) > 0 ==>
      exists k :: 0 <= k < |locs| && locs[k].cls == nest.value &&
        MotherGroupId(locs, nest) == MotherText(locs[k]) &&
        forall j :: k < j < |locs| ==> locs[j].cls != nest.value
  {
    if nest.Some? {
      LastOfClassSpec(locs, nest.value);
      CountOfClassZero(locs, nest.value);
      var r := LastOfClass(locs, nest.value);
      if r.Some? {
        var t := MotherText(r.value);
        var gv := r.value.groupValue;
        assert t[|gv|] == '-';
      }
    }
  }

  /** A group value prefixed with two mother ids determines the mother id,
      as long as the unprefixed values hold no dash. */
  lemma {:induction false} PrefixedValueDeterminesMother(m1: string, s1: string, m2: string, s2: string)
    requires '-' !in s1 && '-' !in s2
    requires m1 + "-" + s1 == m2 + "-" + s2
    ensures m1 == m2 && s1 == s2
  {
    var t := m1 + "-" + s1;
    assert forall i :: |m1| < i < |t| ==> t[i] == s1[i - |m1| - 1];
    assert forall i :: |m2| < i < |t| ==> t[i] == s2[i - |m2| - 1];
    assert t[|m1|] == '-' && t[|m2|] == '-';
    assert m1 == t[..|m1|] == m2;
    assert s1 == t[|m1| + 1..] == s2;
  }

  // ----- affiliation -----

  /** The number of classes in `ms` whose filter admits `a`. */
  function AdmittedBy(ms: seq<LocationClass>, a: Id): (r: nat)
    ensures r <= |ms|
    ensures r > 0 <==> exists k :: 0 <= k < |ms| && ms[k].filter(a)
  {
    if ms == [] then 0
    else
      var rest := AdmittedBy(ms[1..], a);
      assert forall k :: 1 <= k < |ms| ==> ms[k] == ms[1..][k - 1];
      assert rest > 0 ==> exists k :: 1 <= k < |ms| && ms[k].filter(a);
      (if ms[0].filter(a) then 1 else 0) + rest
  }

  /** The melted classes' filter-passers, one class after the other. */
  function MeltAffiliated(ms: seq<LocationClass>, agents: seq<Id>): (r: seq<Id>)
    ensures forall a :: a in r <==> a in agents && AdmittedBy(ms, a) > 0
  {
    if ms == [] then []
    else Filter(agents, ms[0].filter) + MeltAffiliated(ms[1..], agents)
  }

  lemma MulSucc(n: nat, k: nat)
    ensures n * (1 + k) == n + n * k
  {
  }

  /** An agent occurs in the melted classes' affiliation once per listing
      and per melted class that admits it. */
  lemma {:induction false} MeltAffiliatedCount(ms: seq<LocationClass>, agents: seq<Id>, a: Id)
    ensures multiset(MeltAffiliated(ms, agents))[a] == multiset(agents)[a] * AdmittedBy(ms, a)
  {
    if ms != [] {
      var head: seq<Id> := Filter(agents, ms[0].filter);
      var rest: seq<Id> := MeltAffiliated(ms[1..], agents);
      MeltAffiliatedCount(ms[1..], agents, a);
      var n: nat, k: nat := multiset(agents)[a], AdmittedBy(ms[1..], a);
      assert multiset(head + rest)[a] == multiset(head)[a] + multiset(rest)[a];
      if ms[0].filter(a) {
        assert AdmittedBy(ms, a) == 1 + k;
        MulSucc(n, k);
      } else {
        assert AdmittedBy(ms, a) == k;
      }
    }
  }

  /** `_get_affiliated_agents` of a class (lines 469-485): its own
      filter-passers in input order, or, for a class that melts others, the
      concatenation of each melted class's filter-passers. */
  function ClassAffiliated(c: LocationClass, agents: seq<Id>): (r: seq<Id>)
    ensures c.melt == [] ==> forall a :: a in r <==> a in agents && c.filter(a)
    ensures c.melt == [] ==> forall a :: multiset(r)[a] == (if c.filter(a) then multiset(agents)[a] else 0)
    ensures c.melt != [] ==> forall a :: a in r <==> a in agents && exists k :: 0 <= k < |c.melt| && c.melt[k].filter(a)
    ensures c.melt != [] ==> r == MeltAffiliated(c.melt, agents)
  {
    if c.melt == [] then Filter(agents, c.filter) else MeltAffiliated(c.melt, agents)
  }

  // ----- created locations -----

  /** The text `gv=<group value>, <continuation spaces>gid=<group id>` that
      each member of a created location stores under the class name. */
  function Descriptor(groupValue: Val, groupId: nat): string
  {
    "gv=" + groupValue + ", " + "                                    " + "gid=" + NatToString(groupId)
  }
}
