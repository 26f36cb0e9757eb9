/** Melting: the groups built for several location classes are merged
    position by position into the groups of one melting class. */
module Melting {
  import opened Common

  /** What one class's group list contributes at position `i`: with
      `multi_melt` its lists repeat cyclically, without it a list that is too
      short contributes nothing (the swallowed `IndexError`). An empty list
      never contributes. */
  function Pick(lst: seq<seq<Id>>, i: nat, multi: bool): seq<Id>
  {
    if |lst| == 0 then []
    else if multi then lst[i % |lst|]
    else if i < |lst| then lst[i]
    else []
  }

  /** The merged group at position `i`: every class's contribution, in class order. */
  function MeltedAt(ls: seq<seq<seq<Id>>>, i: nat, multi: bool): seq<Id>
  {
    if ls == [] then [] else MeltedAt(ls[..|ls| - 1], i, multi) + Pick(ls[|ls| - 1], i, multi)
  }

  /** The number of merged groups: the longest list with `multi_melt`, the
      shortest without it (the first element of the lengths sorted
      descending or ascending). */
  function MeltLength(ls: seq<seq<seq<Id>>>, multi: bool): nat
    requires |ls| > 0
  {
    if multi then MaxLength(ls) else MinLength(ls)
  }

  /** The merge loop of `_get_melted_groups` for one mother group. */
  method Melt(ls: seq<seq<seq<Id>>>, multi: bool) returns (r: seq<seq<Id>>)
    requires |ls| > 0
    ensures |r| == MeltLength(ls, multi)
    ensures forall i :: 0 <= i < |r| ==> r[i] == MeltedAt(ls, i, multi)
  {
    var z := if multi then MaxLength(ls) else MinLength(ls);
    r := [];
    var i := 0;
    while i < z
      invariant 0 <= i <= z && |r| == i
      invariant forall p :: 0 <= p < i ==> r[p] == MeltedAt(ls, p, multi)
    {
      var melted: seq<Id> := [];
      var k := 0;
      while k < |ls|
        invariant 0 <= k <= |ls|
        invariant melted == MeltedAt(ls[..k], i, multi)
      {
        if |ls[k]| > 0 {
          if multi {
            melted := melted + ls[k][i % |ls[k]|];
          } else if i < |ls[k]| {
            melted := melted + ls[k][i];
          }
        }
        assert ls[..k + 1][..k] == ls[..k];
        k := k + 1;
      }
      assert ls[..k] == ls;
      r := r + [melted];
      i := i + 1;
    }
  }

  /** The merged group at a position holds, whole, what each class's list
      contributes there. */
  lemma {:induction false} PickInMelted(ls: seq<seq<seq<Id>>>, i: nat, multi: bool, k: nat)
    requires k < |ls|
    ensures multiset(Pick(ls[k], i, multi)) <= multiset(MeltedAt(ls, i, multi))
  {
    if k < |ls| - 1 {
      PickInMelted(ls[..|ls| - 1], i, multi, k);
    }
  }

  /** Every member of a merged group comes from some group of some class's list. */
  lemma {:induction false} MeltedFrom(ls: seq<seq<seq<Id>>>, i: nat, multi: bool, x: Id)
    requires x in MeltedAt(ls, i, multi)
    ensures exists k, j :: 0 <= k < |ls| && 0 <= j < |ls[k]| && x in ls[k][j]
  {
    var init := ls[..|ls| - 1];
    if x in MeltedAt(init, i, multi) {
      MeltedFrom(init, i, multi, x);
      var k, j :| 0 <= k < |init| && 0 <= j < |init[k]| && x in init[k][j];
      assert ls[k] == init[k];
    } else {
      var last := ls[|ls| - 1];
      assert x in Pick(last, i, multi);
      var j := if multi then i % |last| else i;
      assert x in last[j];
    }
  }

  /** With `multi_melt`, every group of every class appears, whole, in some
      merged group: the one at its own position. */
  lemma MultiMeltCovers(ls: seq<seq<seq<Id>>>, k: nat, j: nat)
    requires k < |ls| && j < |ls[k]|
    ensures j < MeltLength(ls, true)
    ensures multiset(ls[k][j]) <= multiset(MeltedAt(ls, j, true))
  {
    assert j % |ls[k]| == j;
    PickInMelted(ls, j, true, k);
  }

  /** Without `multi_melt`, the merged group at a position every class's
      list reaches is exactly the groups of all classes there, together. */
  lemma {:induction false} PlainMeltReached(ls: seq<seq<seq<Id>>>, i: nat, x: Id)
    requires forall k :: 0 <= k < |ls| ==> i < |ls[k]|
    ensures x in MeltedAt(ls, i, false) <==> exists k :: 0 <= k < |ls| && x in ls[k][i]
  {
    if ls != [] {
      var init := ls[..|ls| - 1];
      assert forall k :: 0 <= k < |init| ==> init[k] == ls[k];
      PlainMeltReached(init, i, x);
      if x in MeltedAt(init, i, false) {
        var k :| 0 <= k < |init| && x in init[k][i];
        assert x in ls[k][i];
      } else if exists k :: 0 <= k < |ls| && x in ls[k][i] {
        var k :| 0 <= k < |ls| && x in ls[k][i];
        assert k == |ls| - 1;
      }
    }
  }

  /** Without `multi_melt`, every merged group is exactly the groups of all
      classes at its position, together. */
  lemma PlainMeltPosition(ls: seq<seq<seq<Id>>>, i: nat, x: Id)
    requires |ls| > 0 && i < MeltLength(ls, false)
    ensures x in MeltedAt(ls, i, false) <==> exists k :: 0 <= k < |ls| && x in ls[k][i]
  {
    PlainMeltReached(ls, i, x);
  }
}
