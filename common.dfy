/** Shared vocabulary of the population model: identities, optional values,
    error-carrying results and the sequence helpers the engine is built from. */
module Common {

  /** Every agentpy object (agent or location) carries a model-wide unique id. */
  type Id = nat

  /** A value returned by a location-class hook (split, subsplit, stick
      together), represented by its text form `str(value)`. */
  type Val = string

  /** A cell of a source record or an edge attribute. */
  datatype Datum = Num(n: real) | Text(t: string) | Flag(b: bool) | NoneDatum

  datatype Option<+T> = None | Some(value: T)

  datatype Result<+T, +E> = Ok(value: T) | Err(error: E)

  datatype Outcome<+E> = Pass | Fail(error: E)

  /** The elements of `s` that `keep` accepts, in their original order
      (a Python list comprehension with an `if`). */
  function Filter<T(!new)>(s: seq<T>, keep: T -> bool): (r: seq<T>)
    ensures |r| <= |s|
    ensures forall x :: x in r <==> x in s && keep(x)
    ensures forall x :: multiset(r)[x] == if keep(x) then multiset(s)[x] else 0
  {
    if s == [] then []
    else
      assert s == [s[0]] + s[1..];
      var rest := Filter(s[1..], keep);
      if keep(s[0]) then [s[0]] + rest else rest
  }

  /** Filtering distributes over concatenation, so it keeps the input order. */
  lemma {:induction false} FilterConcat<T(!new)>(a: seq<T>, b: seq<T>, keep: T -> bool)
    ensures Filter(a + b, keep) == Filter(a, keep) + Filter(b, keep)
  {
    if a == [] {
      assert a + b == b;
    } else {
      var ab := a + b;
      assert ab[0] == a[0];
      assert ab[1..] == a[1..] + b;
      FilterConcat(a[1..], b, keep);
      if keep(a[0]) {
        calc {
          Filter(ab, keep);
          [a[0]] + Filter(a[1..] + b, keep);
          [a[0]] + (Filter(a[1..], keep) + Filter(b, keep));
          ([a[0]] + Filter(a[1..], keep)) + Filter(b, keep);
        }
      }
    }
  }

  /** Filtering with a test every element passes is the identity. */
  lemma {:induction false} FilterAll<T(!new)>(s: seq<T>, keep: T -> bool)
    requires forall x :: x in s ==> keep(x)
    ensures Filter(s, keep) == s
  {
    if s != [] {
      assert forall x :: x in s[1..] ==> x in s;
      FilterAll(s[1..], keep);
    }
  }

  /** The concatenation of a list of lists (`for g in groups: out.extend(g)`). */
  function Flatten<T>(ss: seq<seq<T>>): seq<T>
  {
    if ss == [] then [] else ss[0] + Flatten(ss[1..])
  }

  lemma {:induction false} FlattenConcat<T>(a: seq<seq<T>>, b: seq<seq<T>>)
    ensures Flatten(a + b) == Flatten(a) + Flatten(b)
  {
    if a == [] {
      assert a + b == b;
    } else {
      assert (a + b)[0] == a[0];
      assert (a + b)[1..] == a[1..] + b;
      FlattenConcat(a[1..], b);
    }
  }

  lemma FlattenSingle<T>(g: seq<T>)
    ensures Flatten([g]) == g
  {
    assert [g][1..] == [];
  }

  /** Reordering the lists does not change which elements the flattening holds. */
  lemma {:induction false} FlattenPermutation<T>(a: seq<seq<T>>, b: seq<seq<T>>)
    requires multiset(a) == multiset(b)
    ensures multiset(Flatten(a)) == multiset(Flatten(b))
    decreases |a|
  {
    if a == [] {
      assert |b| == |multiset(b)| == 0;
    } else {
      assert a[0] in multiset(b);
      var j :| 0 <= j < |b| && b[j] == a[0];
      var rest := b[..j] + b[j+1..];
      assert b == b[..j] + [b[j]] + b[j+1..];
      assert multiset(b) == multiset(b[..j]) + multiset{b[j]} + multiset(b[j+1..]);
      assert a == [a[0]] + a[1..];
      assert multiset(a) == multiset{a[0]} + multiset(a[1..]);
      assert multiset(rest) == multiset(b[..j]) + multiset(b[j+1..]);
      assert multiset(a[1..]) == multiset(a) - multiset{a[0]};
      assert multiset(rest) == multiset(b) - multiset{b[j]};
      assert multiset(a[1..]) == multiset(rest);
      FlattenPermutation(a[1..], rest);
      FlattenConcat(b[..j] + [b[j]], b[j+1..]);
      FlattenConcat(b[..j], [b[j]]);
      FlattenConcat(b[..j], b[j+1..]);
      FlattenSingle(b[j]);
    }
  }

  /** An element occurs in the flattening exactly when some list holds it. */
  lemma {:induction false} InFlatten<T>(ss: seq<seq<T>>, x: T)
    ensures x in Flatten(ss) <==> exists g :: g in ss && x in g
  {
    if ss != [] {
      InFlatten(ss[1..], x);
      assert ss == [ss[0]] + ss[1..];
      assert forall g :: g in ss <==> g == ss[0] || g in ss[1..];
    }
  }

  /** Each list of `ss` occurs whole inside the flattening. */
  lemma {:induction false} FlattenContains<T>(ss: seq<seq<T>>, k: nat)
    requires k < |ss|
    ensures multiset(ss[k]) <= multiset(Flatten(ss))
  {
    if k > 0 {
      FlattenContains(ss[1..], k - 1);
    }
  }

  /** Python's `str(n)` for a non-negative integer: decimal, no leading zero. */
  function NatToString(n: nat): (r: string)
    ensures |r| >= 1
    ensures n >= 10 ==> |r| >= 2
    ensures forall i :: 0 <= i < |r| ==> '0' <= r[i] <= '9'
  {
    if n < 10 then [DigitChar(n)] else NatToString(n / 10) + [DigitChar(n % 10)]
  }

  function DigitChar(d: nat): (c: char)
    requires d < 10
    ensures '0' <= c <= '9'
  {
    ('0' as int + d) as char
  }

  /** Distinct numbers have distinct decimal texts. */
  lemma {:induction false} NatToStringInjective(m: nat, n: nat)
    requires NatToString(m) == NatToString(n)
    ensures m == n
  {
    if m >= 10 && n >= 10 {
      var sm, sn := NatToString(m), NatToString(n);
      assert sm[|sm| - 1] == sn[|sn| - 1];
      assert sm[..|sm| - 1] == NatToString(m / 10);
      assert sn[..|sn| - 1] == NatToString(n / 10);
      NatToStringInjective(m / 10, n / 10);
    }
  }

  /** The largest length in a non-empty list of lists. */
  function MaxLength<T>(ls: seq<seq<T>>): (r: nat)
    requires |ls| > 0
    ensures forall k :: 0 <= k < |ls| ==> |ls[k]| <= r
    ensures exists k :: 0 <= k < |ls| && |ls[k]| == r
  {
    if |ls| == 1 then |ls[0]|
    else
      var m := MaxLength(ls[1..]);
      assert forall k :: 1 <= k < |ls| ==> ls[k] == ls[1..][k - 1];
      if |ls[0]| >= m then |ls[0]| else m
  }

  /** The smallest length in a non-empty list of lists. */
  function MinLength<T>(ls: seq<seq<T>>): (r: nat)
    requires |ls| > 0
    ensures forall k :: 0 <= k < |ls| ==> r <= |ls[k]|
    ensures exists k :: 0 <= k < |ls| && |ls[k]| == r
  {
    if |ls| == 1 then |ls[0]|
    else
      var m := MinLength(ls[1..]);
      assert forall k :: 1 <= k < |ls| ==> ls[k] == ls[1..][k - 1];
      if |ls[0]| <= m then |ls[0]| else m
  }
}
